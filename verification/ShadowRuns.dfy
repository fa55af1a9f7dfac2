/**
  What every stream of events keeps in the shadow: sessions that ended stay
  as they ended, the latched recovery owner is alive, and the anchor moves
  only when it must.
*/
module ShadowRuns {
  import opened Basics
  import opened Identity
  import opened Sessions
  import opened SyncPhases
  import opened ShadowSpec

  // ------------------------------------------------------------------------
  // The mirror as an ordered map.
  // ------------------------------------------------------------------------

  ghost predicate Sorted(mirror: seq<Mirror>) {
    forall i, j :: 0 <= i < j < |mirror| ==> Before(mirror[i].session, mirror[j].session)
  }

  lemma BeforeIsOrder(a: SessionRef, b: SessionRef, c: SessionRef)
    ensures !Before(a, a)
    ensures Before(a, b) && Before(b, c) ==> Before(a, c)
    ensures a == b || Before(a, b) || Before(b, a)
    ensures !(Before(a, b) && Before(b, a))
  {
  }

  lemma UniqueKeys(mirror: seq<Mirror>, i: nat, j: nat)
    requires Sorted(mirror) && i < |mirror| && j < |mirror| && mirror[i].session == mirror[j].session
    ensures i == j
  {
    BeforeIsOrder(mirror[i].session, mirror[j].session, mirror[i].session);
  }

  lemma FoundAt(mirror: seq<Mirror>, m: Mirror)
    requires Sorted(mirror) && m in mirror
    ensures Tracked(mirror, m.session) && mirror[Find(mirror, m.session)] == m
  {
    var i :| 0 <= i < |mirror| && mirror[i] == m;
    var k := Find(mirror, m.session);
    assert k <= i;
    UniqueKeys(mirror, i, k);
  }

  lemma {:induction false} InsertedIs(mirror: seq<Mirror>, m: Mirror)
    requires Sorted(mirror)
    ensures Sorted(Inserted(mirror, m))
    ensures |Inserted(mirror, m)| <= |mirror| + 1
    ensures forall n :: n in Inserted(mirror, m) <==> n == m || (n in mirror && n.session != m.session)
  {
    if mirror != [] {
      var head, tail := mirror[0], mirror[1..];
      assert mirror == [head] + tail;
      BeforeIsOrder(m.session, head.session, m.session);
      forall n | n in tail
        ensures Before(head.session, n.session) && n.session != head.session
        ensures Before(m.session, head.session) ==> Before(m.session, n.session) && n.session != m.session
      {
        BeforeIsOrder(m.session, head.session, n.session);
        BeforeIsOrder(head.session, n.session, n.session);
        BeforeIsOrder(m.session, n.session, n.session);
      }
      if head.session != m.session && !Before(m.session, head.session) {
        InsertedIs(tail, m);
        var r := Inserted(tail, m);
        forall n | n in r
          ensures Before(head.session, n.session)
        {
        }
      }
    }
  }

  lemma {:induction false} EvictedIs(mirror: seq<Mirror>, max: nat)
    requires Sorted(mirror) && max >= 1
    ensures Sorted(Evicted(mirror, max)) && |Evicted(mirror, max)| < max
    ensures forall n :: n in Evicted(mirror, max) ==> n in mirror
  {
    if |mirror| >= max {
      EvictedIs(mirror[1..], max);
    }
  }

  /** A session's outcome, told by its phase. */
  function OutcomeOf(phase: SessionPhase): Option<Outcome> {
    match phase
    case Complete => Some(DurableOutcome)
    case Failed(failure) => Some(FailedOutcome(failure))
    case Cancelled(cause) => Some(CancelledOutcome(cause))
    case _ => None
  }

  /** An outcome is present exactly when the phase is terminal and agrees with it. */
  ghost predicate EntryOk(m: Mirror) {
    m.outcome == OutcomeOf(m.phase) && m.session.targetHash == m.target.hash
  }

  ghost predicate MirrorOk(s: Shadow) {
    && Sorted(s.mirror)
    && (forall m :: m in s.mirror ==> EntryOk(m))
    && |s.mirror| <= s.config.maxSessions
  }

  // ------------------------------------------------------------------------
  // How a session may move.
  // ------------------------------------------------------------------------

  datatype Input = Observe(event: Event) | ArmExpiry(op: OperationRef) | CompareWith(reference: Reference) | Adopt(session: SessionRef)

  /** The phase steps of the shadow, each with the event it needs. */
  ghost predicate PhaseStep(input: Input, key: SessionRef, from: SessionPhase, to: SessionPhase) {
    || to == from
    || (from == Dormant && to == Active)
    || (from == Active && to == Persisting && input == Observe(WriteCompleted(key, WriteAccepted)))
    || (from == Persisting && to == DurablePending && input == Observe(DurabilityFenced(key, FencePassed)))
    || (from == DurablePending && to == Complete && input == Observe(HandoffAcknowledged(key)))
    || (to.Failed? && (from == Active || from == Persisting || from == DurablePending))
    || (to.Cancelled? && !from.IsTerminal())
  }

  predicate SameTimer(m: Mirror, n: Mirror) {
    n.expiryTimer == m.expiryTimer && n.sweepEligible == m.sweepEligible
  }

  /** How the expiry timer moves: armed while the session is live, then fired as exactly the operation armed last. */
  ghost predicate TimerStep(input: Input, m: Mirror, n: Mirror) {
    || SameTimer(m, n)
    || (&& (m.phase == Active || m.phase == Dormant)
        && (|| (input.ArmExpiry? && input.op.session == m.session && n.expiryTimer == Some(input.op) && !n.sweepEligible)
            || (n.sweepEligible && n.expiryTimer.None? && m.expiryTimer.Some?
                && input == Observe(TimerFired(m.expiryTimer.value, true)))))
  }

  /** Idle expiry takes a sweep that finds the session eligible and not scanning. */
  ghost predicate ExpiryStep(input: Input, m: Mirror, n: Mirror) {
    n.phase == Cancelled(IdleExpired) && n.phase != m.phase ==>
      input == Observe(RegistrySweep) && m.sweepEligible && !m.scanning
  }

  ghost predicate Evolves(input: Input, m: Mirror, n: Mirror) {
    && n.session == m.session
    && n.target.hash == m.target.hash
    && TimerStep(input, m, n)
    && ExpiryStep(input, m, n)
    && PhaseStep(input, m.session, m.phase, n.phase)
    && n.outcome == (if n.phase == m.phase then m.outcome else OutcomeOf(n.phase))
  }

  /** A session just started under the given id. */
  ghost predicate Born(runEpoch: nat, id: nat, n: Mirror) {
    && n.phase == Active && n.session.runEpoch == runEpoch && n.session.sessionId == id && n.session.planEpoch == 1
    && EntryOk(n)
    && n.expiryTimer.None? && !n.sweepEligible
  }

  /** Every tracked session evolved from one tracked before, or was born under the id just drawn. */
  ghost predicate Descends(input: Input, s: Shadow, next: nat, mirror: seq<Mirror>) {
    forall n :: n in mirror ==>
      || (Born(s.runEpoch, s.nextId, n) && next == Succ(s.nextId))
      || exists m :: m in s.mirror && Evolves(input, m, n)
  }

  /** The same session in the same phase. */
  ghost predicate SameLife(m: Mirror, n: Mirror) {
    n.session == m.session && n.target.hash == m.target.hash && n.phase == m.phase && n.outcome == m.outcome && SameTimer(m, n)
  }

  /** Every tracked session was tracked before in the same phase, or was born. */
  ghost predicate Persists(s: Shadow, next: nat, mirror: seq<Mirror>) {
    forall n :: n in mirror ==>
      || (Born(s.runEpoch, s.nextId, n) && next == Succ(s.nextId))
      || exists m :: m in s.mirror && SameLife(m, n)
  }

  lemma SamePersists(s: Shadow, next: nat)
    ensures Persists(s, next, s.mirror)
  {
    forall n | n in s.mirror
      ensures SameLife(n, n)
    {
    }
  }

  lemma EvolvesRefl(input: Input, m: Mirror)
    ensures Evolves(input, m, m)
  {
  }

  lemma SameDescends(input: Input, s: Shadow, next: nat)
    ensures Descends(input, s, next, s.mirror)
  {
    forall n | n in s.mirror
      ensures exists m :: m in s.mirror && Evolves(input, m, n)
    {
      EvolvesRefl(input, n);
    }
  }

  /** One changed entry. */
  lemma TouchDescends(input: Input, s: Shadow, i: nat, n: Mirror)
    requires MirrorOk(s) && i < |s.mirror| && Evolves(input, s.mirror[i], n)
    ensures Descends(input, s, s.nextId, s.mirror[i := n])
    ensures n.phase == s.mirror[i].phase && SameTimer(s.mirror[i], n) ==> Persists(s, s.nextId, s.mirror[i := n])
    ensures MirrorOk(s.(mirror := s.mirror[i := n]))
  {
    var b := s.mirror[i := n];
    forall x | x in b
      ensures EntryOk(x) && exists m :: m in s.mirror && Evolves(input, m, x)
      ensures n.phase == s.mirror[i].phase && SameTimer(s.mirror[i], n) ==> exists m :: m in s.mirror && SameLife(m, x)
    {
      var k :| 0 <= k < |b| && b[k] == x;
      if k == i {
        assert s.mirror[i] in s.mirror;
        assert EntryOk(s.mirror[i]);
        assert n.phase == s.mirror[i].phase && SameTimer(s.mirror[i], n) ==> SameLife(s.mirror[i], x);
      } else {
        assert s.mirror[k] == x && x in s.mirror && SameLife(x, x);
        EvolvesRefl(input, x);
      }
    }
  }

  lemma CancelEvolves(input: Input, m: Mirror, bulk: Bulk)
    requires EntryOk(m) && (bulk.Expired? ==> input == Observe(RegistrySweep))
    ensures var n := if Selected(m, bulk) then CancelWith(m, CauseOf(bulk)) else m; Evolves(input, m, n) && EntryOk(n)
  {
  }

  /** Entries changed one by one. */
  lemma CancelDescends(input: Input, s: Shadow, next: nat, bulk: Bulk)
    requires MirrorOk(s) && (bulk.Expired? ==> input == Observe(RegistrySweep))
    ensures Descends(input, s, next, CancelEach(s.mirror, bulk))
    ensures MirrorOk(s.(mirror := CancelEach(s.mirror, bulk)))
  {
    var b := CancelEach(s.mirror, bulk);
    hide Selected, CancelWith, CauseOf, EntryOk, Before, CancelEach;
    forall k | 0 <= k < |b|
      ensures Evolves(input, s.mirror[k], b[k]) && EntryOk(b[k])
    {
      assert s.mirror[k] in s.mirror;
      CancelEvolves(input, s.mirror[k], bulk);
    }
    forall x | x in b
      ensures EntryOk(x) && exists m :: m in s.mirror && Evolves(input, m, x)
    {
      var k :| 0 <= k < |b| && b[k] == x;
      assert s.mirror[k] in s.mirror;
    }
  }

  /** A new session. */
  lemma MintDescends(input: Input, s: Shadow, target: LedgerTarget, reason: AcquireReason)
    requires MirrorOk(s) && s.config.maxSessions >= 1
    ensures var t := Minted(s, target, reason); Descends(input, s, t.nextId, t.mirror) && Persists(s, t.nextId, t.mirror)
    ensures MirrorOk(Minted(s, target, reason))
    ensures exists m :: m in Minted(s, target, reason).mirror && !m.phase.IsTerminal() && m.target.hash == target.hash
  {
    var m := Mirror(MintRef(s, target.hash), target, Active, reason, 0, None, false, None, true);
    var kept := Evicted(s.mirror, s.config.maxSessions);
    EvictedIs(s.mirror, s.config.maxSessions);
    InsertedIs(kept, m);
    var b := Inserted(kept, m);
    assert m in b && Born(s.runEpoch, s.nextId, m);
    hide Inserted, Evicted;
    forall x | x in b && x != m
      ensures x in s.mirror && Evolves(input, x, x) && SameLife(x, x)
    {
      EvolvesRefl(input, x);
    }
  }

  // ------------------------------------------------------------------------
  // Acquisition.
  // ------------------------------------------------------------------------

  /** What acquisition leaves alone, and that it gives the target a live session when peers are usable. */
  lemma AcquireMoves(input: Input, s: Shadow, target: LedgerTarget, reason: AcquireReason, preferred: bool, neutral: bool)
    requires MirrorOk(s) && s.config.maxSessions >= 1
    ensures var t := Acquire(s, target, reason, preferred, neutral);
            && MirrorOk(t) && Descends(input, s, t.nextId, t.mirror) && (!preferred ==> Persists(s, t.nextId, t.mirror))
            && t.config == s.config && t.runEpoch == s.runEpoch && t.recovery == s.recovery && t.latest == s.latest
            && t.usable == s.usable
            && (t.nextId == s.nextId || t.nextId == Succ(s.nextId))
            && (t.phase == s.phase || (!neutral && t.phase == Applied(s.phase, TargetRequired(target))))
            && (s.usable ==> exists m :: m in t.mirror && !m.phase.IsTerminal() && m.target.hash == target.hash)
  {
    hide MirrorOk, Descends, Persists, Applied, Transition, EntryOk;
    SameDescends(input, s, s.nextId);
    SamePersists(s, s.nextId);
    if s.usable {
      var i := FirstReusable(s.mirror, target);
      if i < |s.mirror| {
        var n := Reused(s.mirror[i], target, preferred);
        ReuseEvolves(input, s, i, target, preferred);
        TouchDescends(input, s, i, n);
        assert s.mirror[i := n][i] == n;
        OkElsewhere(s.(mirror := s.mirror[i := n]), Acquire(s, target, reason, preferred, neutral));
      } else {
        MintDescends(input, s, target, reason);
        hide Minted;
        OkElsewhere(Minted(s, target, reason), Acquire(s, target, reason, preferred, neutral));
      }
    }
    OkElsewhere(s, Note(s, None, DerivedRejected, Some(s.phase), None, s.depth));
  }

  lemma ReuseEvolves(input: Input, s: Shadow, i: nat, target: LedgerTarget, preferred: bool)
    requires MirrorOk(s) && i < |s.mirror| && Reusable(s.mirror[i], target)
    ensures Evolves(input, s.mirror[i], Reused(s.mirror[i], target, preferred))
  {
    assert s.mirror[i] in s.mirror;
    assert EntryOk(s.mirror[i]);
  }

  lemma OkElsewhere(s: Shadow, t: Shadow)
    requires MirrorOk(s)
    ensures t.mirror == s.mirror && t.config == s.config ==> MirrorOk(t)
  {
  }

  // ------------------------------------------------------------------------
  // One event.
  // ------------------------------------------------------------------------

  /** A recovery owner belongs to the latched target, and a candidate is for another hash. */
  ghost predicate RecoveryOk(r: Recovery) {
    && (r.session.Some? ==> r.target.Some? && r.session.value.targetHash == r.target.value.hash)
    && (r.candidate.Some? && r.target.Some? ==> r.candidate.value.hash != r.target.value.hash)
  }

  /** What deriving an event may do to the rest of the state. */
  ghost predicate Derives(s: Shadow, t: Shadow, e: Event) {
    && t.config == s.config && t.runEpoch == s.runEpoch
    && (t.nextId == s.nextId || t.nextId == Succ(s.nextId))
    && (RecoveryOk(s.recovery) ==> RecoveryOk(t.recovery))
    && (s.phase.Syncing? && t.phase.Syncing? && !e.StartupMode? ==> SameAnchor(s.phase.target, t.phase.target))
  }

  lemma PlainDerives(s: Shadow, e: Event)
    requires IsPlain(e)
    ensures var t := Plain(s, e);
            t.mirror == s.mirror && t.config == s.config && t.runEpoch == s.runEpoch && t.nextId == s.nextId && t.recovery == s.recovery
  {
    hide Applied, Transition;
  }

  lemma PlainAnchor(s: Shadow, e: Event)
    requires IsPlain(e) && !e.StartupMode? && s.phase.Syncing? && Plain(s, e).phase.Syncing?
    ensures SameAnchor(s.phase.target, Plain(s, e).phase.target)
  {
    match e
    case Connectivity(_) =>
    case TransportConnectivity(_) =>
    case QuorumLost =>
    case QuorumAvailable =>
    case ViewChange =>
    case LclDivergence(target) => AnchorStep(s.phase, PreferredLclDivergence(target));
    case LclReconciled(_) =>
    case Blocked =>
    case PublicationCommitted(_, _) =>
    case Heartbeat =>
    case PlanSliceReady =>
  }

  /** At most the entry of one session changed, and it evolved. */
  ghost predicate OneMoves(s: Shadow, t: Shadow, key: SessionRef, input: Input) {
    var i := Find(s.mirror, key);
    && t == s.(mirror := t.mirror, depth := t.depth, trail := t.trail)
    && s.trail <= t.trail && |t.trail| == |s.trail| + 1
    && (t.mirror == s.mirror
        || (i < |s.mirror| && |t.mirror| == |s.mirror| && t.mirror == s.mirror[i := t.mirror[i]]
            && (EntryOk(s.mirror[i]) ==> Evolves(input, s.mirror[i], t.mirror[i]))))
  }

  lemma PacketMoves(s: Shadow, key: SessionRef)
    ensures OneMoves(s, Packet(s, key), key, Observe(PacketAdmitted(key)))
  {
  }

  lemma ReadMoves(s: Shadow, key: SessionRef, kind: OperationKind, read: ReadResult)
    ensures OneMoves(s, ReadDone(s, key, kind, read), key, Observe(ReadCompleted(key, kind, read)))
  {
  }

  lemma WriteMoves(s: Shadow, key: SessionRef, written: WriteResult)
    ensures OneMoves(s, WriteDone(s, key, written), key, Observe(WriteCompleted(key, written)))
  {
  }

  lemma FenceMoves(s: Shadow, key: SessionRef, fenced: FenceResult)
    ensures OneMoves(s, FenceDone(s, key, fenced), key, Observe(DurabilityFenced(key, fenced)))
  {
  }

  lemma AckMoves(s: Shadow, key: SessionRef)
    ensures OneMoves(s, Acknowledged(s, key), key, Observe(HandoffAcknowledged(key)))
  {
  }

  lemma TimerMoves(s: Shadow, op: OperationRef, expiry: bool)
    ensures OneMoves(s, TimerDone(s, op, expiry), op.session, Observe(TimerFired(op, expiry)))
  {
  }

  function KeyOf(e: Event): SessionRef
    requires IsOfSession(e)
  {
    if e.TimerFired? then e.op.session else e.session
  }

  /** An event about one session changes at most that session's entry. */
  lemma OfSessionMoves(s: Shadow, e: Event)
    requires IsOfSession(e)
    ensures OneMoves(s, OfSession(s, e), KeyOf(e), Observe(e))
  {
    hide OneMoves;
    match e
    case PacketAdmitted(key) => PacketMoves(s, key);
    case ReadCompleted(key, kind, read) => ReadMoves(s, key, kind, read);
    case WriteCompleted(key, written) => WriteMoves(s, key, written);
    case DurabilityFenced(key, fenced) => FenceMoves(s, key, fenced);
    case HandoffAcknowledged(key) => AckMoves(s, key);
    case HandoffRejected(key) => RefusedMoves(s, key);
    case TimerFired(op, expiry) => TimerMoves(s, op, expiry);
  }

  lemma RefusedMoves(s: Shadow, key: SessionRef)
    ensures OneMoves(s, HandoffRefused(s, key), key, Observe(HandoffRejected(key)))
  {
  }

  /** What one derivation is known to do. */
  ghost predicate DerivesOk(s: Shadow, t: Shadow, e: Event) {
    MirrorOk(t) && Descends(Observe(e), s, t.nextId, t.mirror) && Derives(s, t, e)
  }

  lemma SessionDerives(s: Shadow, e: Event)
    requires MirrorOk(s) && IsOfSession(e)
    ensures DerivesOk(s, OfSession(s, e), e)
  {
    OfSessionMoves(s, e);
    var t, i := OfSession(s, e), Find(s.mirror, KeyOf(e));
    hide OfSession, MirrorOk, Descends, EntryOk, Evolves, RecoveryOk;
    SameDescends(Observe(e), s, t.nextId);
    if t.mirror != s.mirror {
      EntryIs(s, i);
      TouchDescends(Observe(e), s, i, t.mirror[i]);
      OkElsewhere(s.(mirror := s.mirror[i := t.mirror[i]]), t);
    }
    OkElsewhere(s, t);
  }

  lemma EntryIs(s: Shadow, i: nat)
    requires MirrorOk(s) && i < |s.mirror|
    ensures EntryOk(s.mirror[i])
  {
    assert s.mirror[i] in s.mirror;
  }

  lemma BulkDerives(s: Shadow, t: Shadow, e: Event, bulk: Bulk)
    requires MirrorOk(s) && t.mirror in {s.mirror, CancelEach(s.mirror, bulk)}
    requires Derives(s, t, e) && (bulk.Expired? ==> e.RegistrySweep?)
    ensures DerivesOk(s, t, e)
  {
    hide MirrorOk, Descends, RecoveryOk, CancelEach;
    SameDescends(Observe(e), s, t.nextId);
    CancelDescends(Observe(e), s, t.nextId, bulk);
    OkElsewhere(s, t);
    OkElsewhere(s.(mirror := CancelEach(s.mirror, bulk)), t);
  }

  lemma InstalledDerives(s: Shadow, e: Event)
    requires e.LclInstalled?
    ensures var t := Installed(s, e.lcl); Derives(s, t, e) && t.mirror == CancelEach(s.mirror, Superseding(e.lcl.hash))
  {
    hide CancelEach, CancelTrail, RecoveryOk;
  }

  lemma OtherBulkDerives(s: Shadow, e: Event)
    requires e.StoreRotated? || e.RegistrySweep? || e.ShutdownRequested? || e.FetchPackAvailable?
    requires MirrorOk(s)
    ensures DerivesOk(s, Derived(s, e), e)
  {
    hide CancelEach, CancelTrail, ActiveTrail, AnySelected, RecoveryOk, MirrorOk, Descends, DerivesOk;
    var t := Derived(s, e);
    if e.StoreRotated? {
      BulkDerives(s, t, e, OlderThan(e.generation));
    } else if e.RegistrySweep? {
      BulkDerives(s, t, e, Expired);
    } else {
      BulkDerives(s, t, e, AllLive);
    }
  }

  lemma AcquireDerives(s: Shadow, e: Event, from: Shadow, target: LedgerTarget, reason: AcquireReason, preferred: bool, neutral: bool)
    requires MirrorOk(s) && s.config.maxSessions >= 1 && !e.StartupMode?
    requires from == s.(recovery := from.recovery, latest := from.latest)
    requires RecoveryOk(s.recovery) ==> RecoveryOk(from.recovery)
    ensures DerivesOk(s, Acquire(from, target, reason, preferred, neutral), e)
  {
    hide MirrorOk, Descends, RecoveryOk, Acquire, Applied;
    OkElsewhere(s, from);
    AcquireMoves(Observe(e), from, target, reason, preferred, neutral);
    DescendsFrom(Observe(e), s, from, Acquire(from, target, reason, preferred, neutral));
    if s.phase.Syncing? && Applied(s.phase, TargetRequired(target)).Syncing? {
      AnchorStep(s.phase, TargetRequired(target));
    }
  }

  lemma DescendsFrom(input: Input, s: Shadow, t: Shadow, u: Shadow)
    requires t.mirror == s.mirror && t.runEpoch == s.runEpoch && t.nextId == s.nextId && Descends(input, t, u.nextId, u.mirror)
    ensures Descends(input, s, u.nextId, u.mirror)
  {
  }

  lemma PersistsFrom(s: Shadow, t: Shadow, u: Shadow)
    requires t.mirror == s.mirror && t.runEpoch == s.runEpoch && t.nextId == s.nextId && Persists(t, u.nextId, u.mirror)
    ensures Persists(s, u.nextId, u.mirror)
  {
  }

  lemma RecoveryDerives(s: Shadow, e: Event)
    requires MirrorOk(s) && s.config.maxSessions >= 1 && e.ValidationRecoveryTarget?
    ensures DerivesOk(s, RecoveryTarget(s, e.recovery), e)
  {
    var r, target := s.recovery, e.recovery;
    var t := RecoveryTarget(s, target);
    hide MirrorOk, Descends, Acquire;
    if target.None? || (r.target.Some? && r.target.value.hash != target.value.hash) {
      SameDescends(Observe(e), s, t.nextId);
      OkElsewhere(s, t);
    } else {
      var from := s.(recovery := r.(target := if r.target.Some? then r.target else target, candidate := None));
      AcquireDerives(s, e, from, target.value, Consensus, false, true);
    }
  }

  /** Deriving any event. */
  lemma DerivedMoves(s: Shadow, e: Event)
    requires MirrorOk(s) && s.config.maxSessions >= 1
    ensures DerivesOk(s, Derived(s, e), e)
  {
    hide MirrorOk, Descends, RecoveryOk, Acquire, RecoveryTarget, Plain, OfSession, Installed;
    if IsPlain(e) {
      PlainDerives(s, e);
      SameDescends(Observe(e), s, s.nextId);
      OkElsewhere(s, Plain(s, e));
      if !e.StartupMode? && s.phase.Syncing? && Plain(s, e).phase.Syncing? {
        PlainAnchor(s, e);
      }
    } else if IsOfSession(e) {
      SessionDerives(s, e);
    } else {
      hide DerivesOk;
      match e
      case AcquireRequested(target, reason) => AcquireDerives(s, e, s, target, reason, false, false);
      case ValidationTarget(target) => AcquireDerives(s, e, s, target, Consensus, false, true);
      case ValidationRecoveryTarget(_) => RecoveryDerives(s, e);
      case ConsensusTarget(target, reason) => AcquireDerives(s, e, s.(latest := Some(target)), target, reason, true, false);
      case LclInstalled(lcl) =>
        InstalledDerives(s, e);
        BulkDerives(s, Installed(s, lcl), e, Superseding(lcl.hash));
      case StoreRotated(_) => OtherBulkDerives(s, e);
      case FetchPackAvailable => OtherBulkDerives(s, e);
      case RegistrySweep => OtherBulkDerives(s, e);
      case ShutdownRequested => OtherBulkDerives(s, e);
    }
  }

  // ------------------------------------------------------------------------
  // The recovery owner.
  // ------------------------------------------------------------------------

  /** The stored owner is a tracked live session for the latched target. */
  ghost predicate OwnerOk(s: Shadow) {
    var r := s.recovery;
    r.session.Some? ==>
      && r.target.Some?
      && Live(s.mirror, r.session.value)
      && s.mirror[Find(s.mirror, r.session.value)].target.hash == r.target.value.hash
  }

  lemma {:induction false} OwnerIs(mirror: seq<Mirror>, hash: Hash)
    ensures var o := Owner(mirror, hash);
            && (o.Some? ==> exists m :: m in mirror && m.session == o.value && !m.phase.IsTerminal() && m.target.hash == hash)
            && (o.None? ==> forall m :: m in mirror ==> m.phase.IsTerminal() || m.target.hash != hash)
  {
    if mirror != [] {
      OwnerIs(mirror[1..], hash);
      assert mirror == [mirror[0]] + mirror[1..];
    }
  }

  /** The owner picked for a hash is live and for that hash. */
  lemma OwnerLive(s: Shadow, hash: Hash)
    requires MirrorOk(s) && Owner(s.mirror, hash).Some?
    ensures var o := Owner(s.mirror, hash).value;
            Live(s.mirror, o) && s.mirror[Find(s.mirror, o)].target.hash == hash && o.targetHash == hash
  {
    OwnerIs(s.mirror, hash);
    var o := Owner(s.mirror, hash).value;
    var m :| m in s.mirror && m.session == o && !m.phase.IsTerminal() && m.target.hash == hash;
    FoundAt(s.mirror, m);
    assert EntryOk(m);
  }

  /** A live tracked owner is for the latched target: its key carries the hash. */
  lemma LiveOwnerOk(s: Shadow)
    requires MirrorOk(s) && RecoveryOk(s.recovery)
    requires s.recovery.session.Some? && Live(s.mirror, s.recovery.session.value)
    ensures OwnerOk(s)
  {
    EntryIs(s, Find(s.mirror, s.recovery.session.value));
  }

  /** What reconciling is known to do. */
  ghost predicate Reconciles(t: Shadow, u: Shadow) {
    && MirrorOk(u) && Persists(t, u.nextId, u.mirror)
    && u.config == t.config && u.runEpoch == t.runEpoch && u.phase == t.phase && u.latest == t.latest
    && (u.nextId == t.nextId || u.nextId == Succ(t.nextId))
    && RecoveryOk(u.recovery) && OwnerOk(u)
  }

  lemma ReconcileMoves(t: Shadow)
    requires MirrorOk(t) && RecoveryOk(t.recovery) && t.config.maxSessions >= 1
    ensures Reconciles(t, Reconcile(t))
  {
    hide MirrorOk, Persists, Acquire;
    SamePersists(t, t.nextId);
    var r := t.recovery;
    if r.session.Some? && Live(t.mirror, r.session.value) {
      LiveOwnerOk(t);
    } else {
      var v := if r.session.Some? then t.(recovery := Recovery(r.candidate, None, None)) else t;
      OkElsewhere(t, v);
      if v.recovery.target.Some? {
        LatchMoves(t, v);
      }
    }
  }

  lemma LatchMoves(t: Shadow, v: Shadow)
    requires MirrorOk(v) && RecoveryOk(v.recovery) && v.config.maxSessions >= 1
    requires v.recovery.target.Some? && v.recovery.session.None?
    requires v == t.(recovery := v.recovery)
    ensures var hash := v.recovery.target.value.hash;
            var u := if Owner(v.mirror, hash).Some? then v.(recovery := v.recovery.(session := Owner(v.mirror, hash)))
                     else if v.usable then
                       var x := Acquire(v, v.recovery.target.value, Consensus, false, true);
                       x.(recovery := x.recovery.(session := Owner(x.mirror, hash)))
                     else v;
            Reconciles(t, u)
  {
    hide MirrorOk, Persists, Acquire, Owner, Find;
    var target := v.recovery.target.value;
    SamePersists(t, t.nextId);
    if Owner(v.mirror, target.hash).Some? {
      OwnerLive(v, target.hash);
      OkElsewhere(v, v.(recovery := v.recovery.(session := Owner(v.mirror, target.hash))));
    } else if v.usable {
      AcquireMoves(CompareWith(Reference(MintRef(v, 0), None, None, None, 0)), v, target, Consensus, false, true);
      var x := Acquire(v, target, Consensus, false, true);
      PersistsFrom(t, v, x);
      OkElsewhere(x, x.(recovery := x.recovery.(session := Owner(x.mirror, target.hash))));
      if Owner(x.mirror, target.hash).Some? {
        OwnerLive(x, target.hash);
      }
    }
  }

  // ------------------------------------------------------------------------
  // Recording.
  // ------------------------------------------------------------------------

  /** One record may start two sessions: for the event and for the recovery target. */
  ghost predicate DescendsTwice(input: Input, s: Shadow, t: Shadow) {
    forall n :: n in t.mirror ==>
      || (Born(s.runEpoch, s.nextId, n) && t.nextId in {Succ(s.nextId), Succ(Succ(s.nextId))})
      || (Born(s.runEpoch, Succ(s.nextId), n) && t.nextId == Succ(Succ(s.nextId)))
      || exists m :: m in s.mirror && Evolves(input, m, n)
  }

  lemma DescendsThenPersists(input: Input, s: Shadow, t: Shadow, u: Shadow)
    requires Descends(input, s, t.nextId, t.mirror) && Persists(t, u.nextId, u.mirror)
    requires t.runEpoch == s.runEpoch
    requires t.nextId in {s.nextId, Succ(s.nextId)} && u.nextId in {t.nextId, Succ(t.nextId)}
    requires forall n :: n in u.mirror ==> EntryOk(n)
    ensures DescendsTwice(input, s, u)
  {
    forall n | n in u.mirror && !(Born(t.runEpoch, t.nextId, n) && u.nextId == Succ(t.nextId))
      ensures || (Born(s.runEpoch, s.nextId, n) && t.nextId == Succ(s.nextId))
              || exists m :: m in s.mirror && Evolves(input, m, n)
    {
      var x :| x in t.mirror && SameLife(x, n);
      if !(Born(s.runEpoch, s.nextId, x) && t.nextId == Succ(s.nextId)) {
        var m :| m in s.mirror && Evolves(input, m, x);
        assert Evolves(input, m, n);
      }
    }
  }

  /** The anchor is where it was, or moved because no session could complete it and one can complete the latest target. */
  ghost predicate AnchorMoves(s: Shadow, t: Shadow) {
    s.phase.Syncing? && t.phase.Syncing? ==>
      || SameAnchor(s.phase.target, t.phase.target)
      || (&& t.latest == Some(t.phase.target)
          && !Viable(t.mirror, s.phase.target.hash)
          && Viable(t.mirror, t.phase.target.hash))
  }

  /** What every record keeps, whatever the event. */
  lemma RecordMoves(s: Shadow, e: Event)
    requires s.config.enabled && s.config.maxSessions >= 1
    requires MirrorOk(s) && RecoveryOk(s.recovery)
    ensures var t := Recorded(s, e);
            && MirrorOk(t) && RecoveryOk(t.recovery) && OwnerOk(t)
            && DescendsTwice(Observe(e), s, t)
            && t.config == s.config && t.runEpoch == s.runEpoch
            && t.nextId in {s.nextId, Succ(s.nextId), Succ(Succ(s.nextId))}
            && (!e.StartupMode? ==> AnchorMoves(s, t))
  {
    hide Derived, Reconcile, MirrorOk, RecoveryOk, OwnerOk, Descends, DescendsTwice, Persists, Viable;
    DerivedMoves(s, e);
    var d := Derived(s, e);
    ReconcileMoves(d);
    var r := Reconcile(d);
    EntriesOk(r);
    DescendsThenPersists(Observe(e), s, d, r);
    PromoteKeeps(r);
    SameDescendsTwice(Observe(e), s, r, Promote(r));
  }

  lemma SameDescendsTwice(input: Input, s: Shadow, t: Shadow, u: Shadow)
    requires DescendsTwice(input, s, t) && u.mirror == t.mirror && u.nextId == t.nextId
    ensures DescendsTwice(input, s, u)
  {
  }

  lemma EntriesOk(s: Shadow)
    requires MirrorOk(s)
    ensures forall n :: n in s.mirror ==> EntryOk(n)
  {
  }

  lemma PromoteKeeps(r: Shadow)
    requires MirrorOk(r) && OwnerOk(r)
    ensures var t := Promote(r); t == r.(phase := t.phase, trail := t.trail) && MirrorOk(t) && OwnerOk(t)
  {
  }

  /**
    The anchor of a service that stays in Syncing keeps its hash, and at most
    learns its sequence, unless no viable session for it remains and the
    latest consensus target, the new anchor, has one.
  */
  lemma AnchorMovesOnlyWhenLost(s: Shadow, e: Event)
    requires s.config.maxSessions >= 1 && MirrorOk(s) && RecoveryOk(s.recovery) && !e.StartupMode?
    requires s.phase.Syncing? && Recorded(s, e).phase.Syncing?
    requires Recorded(s, e).phase.target.hash != s.phase.target.hash
    ensures var t := Recorded(s, e);
            && t.latest == Some(t.phase.target)
            && !Viable(t.mirror, s.phase.target.hash) && Viable(t.mirror, t.phase.target.hash)
  {
    hide Recorded, MirrorOk, RecoveryOk, OwnerOk, DescendsTwice, Viable;
    if s.config.enabled {
      RecordMoves(s, e);
    } else {
      Disabled(s, e);
    }
  }

  lemma Disabled(s: Shadow, e: Event)
    requires !s.config.enabled
    ensures Recorded(s, e) == s
  {
  }

  // ------------------------------------------------------------------------
  // Runs.
  // ------------------------------------------------------------------------

  function Step(s: Shadow, input: Input): Shadow {
    match input
    case Observe(event) => Recorded(s, event)
    case ArmExpiry(op) => Armed(s, op)
    case CompareWith(reference) => Compared(s, reference)
    case Adopt(session) => Adopted(s, session)
  }

  function Run(s: Shadow, inputs: seq<Input>): Shadow {
    if inputs == [] then s else Step(Run(s, inputs[..|inputs| - 1]), inputs[|inputs| - 1])
  }

  /** Shadowing needs room for at least one session. */
  predicate Usable(config: Config) {
    config.enabled ==> config.maxSessions >= 1
  }

  lemma AdoptedOk(s: Shadow, production: SessionRef)
    requires MirrorOk(s)
    ensures MirrorOk(Adopted(s, production))
  {
    var i := LastLive(s.mirror, production.targetHash);
    if i < |s.mirror| {
      WithoutIs(s.mirror, i);
      assert s.mirror[i] in s.mirror && EntryOk(s.mirror[i]);
      InsertedIs(s.mirror[..i] + s.mirror[i + 1..], s.mirror[i].(session := production));
      hide Inserted;
    }
  }

  lemma ArmedKeeps(s: Shadow, op: OperationRef)
    requires MirrorOk(s)
    ensures var t := Armed(s, op);
            && t == s.(mirror := t.mirror)
            && MirrorOk(t) && Descends(ArmExpiry(op), s, s.nextId, t.mirror) && (OwnerOk(s) ==> OwnerOk(t))
  {
    SameDescends(ArmExpiry(op), s, s.nextId);
    var i := Find(s.mirror, op.session);
    if i < |s.mirror| && (s.mirror[i].phase == Active || s.mirror[i].phase == Dormant) {
      var n := s.mirror[i].(expiryTimer := Some(op), sweepEligible := false);
      TouchDescends(ArmExpiry(op), s, i, n);
      hide Descends, Evolves, MirrorOk, Find;
      if s.recovery.session.Some? {
        FindKept(s.mirror, i, n, s.recovery.session.value);
      }
    }
  }

  /** Arming and comparing change no session's life. */
  lemma QuietSteps(s: Shadow, input: Input)
    requires MirrorOk(s) && (input.ArmExpiry? || input.CompareWith?)
    ensures var t := Step(s, input);
            && t == s.(mirror := t.mirror, trail := t.trail)
            && MirrorOk(t) && Descends(input, s, s.nextId, t.mirror) && (OwnerOk(s) ==> OwnerOk(t))
  {
    hide Descends, Armed, Sorted, EntryOk;
    if input.ArmExpiry? {
      ArmedKeeps(s, input.op);
    } else {
      SameDescends(input, s, s.nextId);
    }
  }

  lemma {:induction false} FindKept(mirror: seq<Mirror>, i: nat, n: Mirror, key: SessionRef)
    requires i < |mirror| && n.session == mirror[i].session
    ensures Find(mirror[i := n], key) == Find(mirror, key)
  {
    if mirror[0].session != key {
      if i > 0 {
        FindKept(mirror[1..], i - 1, n, key);
        assert mirror[i := n][1..] == mirror[1..][i - 1 := n];
      } else {
        assert mirror[i := n][1..] == mirror[1..];
      }
    }
  }

  lemma StepOk(s: Shadow, input: Input)
    requires Usable(s.config) && MirrorOk(s) && RecoveryOk(s.recovery)
    ensures var t := Step(s, input);
            && MirrorOk(t) && RecoveryOk(t.recovery) && t.config == s.config
            && (OwnerOk(s) && !input.Adopt? ==> OwnerOk(t))
            && (s.config.enabled && input.Observe? ==> OwnerOk(t))
  {
    hide MirrorOk, RecoveryOk, OwnerOk, Descends, DescendsTwice, Armed, Compared, Recorded;
    match input
    case Observe(event) =>
      if s.config.enabled {
        RecordMoves(s, event);
      } else {
        Disabled(s, event);
      }
    case ArmExpiry(_) => QuietSteps(s, input);
    case CompareWith(_) => QuietSteps(s, input);
    case Adopt(session) => AdoptedOk(s, session);
  }

  /** The mirror stays ordered, bounded and self-consistent. */
  lemma {:induction false} RunsKeepMirror(config: Config, runEpoch: nat, inputs: seq<Input>)
    requires Usable(config)
    ensures var s := Run(NewShadow(config, runEpoch), inputs);
            MirrorOk(s) && RecoveryOk(s.recovery) && s.config == config
  {
    hide Step;
    if inputs != [] {
      hide MirrorOk, RecoveryOk;
      RunsKeepMirror(config, runEpoch, inputs[..|inputs| - 1]);
      StepOk(Run(NewShadow(config, runEpoch), inputs[..|inputs| - 1]), inputs[|inputs| - 1]);
    }
  }

  /**
    A stored recovery owner is a tracked live session for the latched target:
    after every recorded event whatever came before, and at every moment of a
    run without adoptions. A stored candidate is always for another hash.
  */
  lemma {:induction false} RecoveryOwnerIsLive(config: Config, runEpoch: nat, inputs: seq<Input>)
    requires Usable(config)
    ensures var s := Run(NewShadow(config, runEpoch), inputs);
            && RecoveryOk(s.recovery)
            && (inputs != [] && inputs[|inputs| - 1].Observe? ==> OwnerOk(s))
            && ((forall i :: 0 <= i < |inputs| ==> !inputs[i].Adopt?) ==> OwnerOk(s))
  {
    hide Step;
    RunsKeepMirror(config, runEpoch, inputs);
    if inputs != [] {
      var init := inputs[..|inputs| - 1];
      RecoveryOwnerIsLive(config, runEpoch, init);
      RunsKeepMirror(config, runEpoch, init);
      var s := Run(NewShadow(config, runEpoch), init);
      StepOk(s, inputs[|inputs| - 1]);
      if !config.enabled {
        NothingRecorded(config, runEpoch, inputs);
      }
      hide MirrorOk, RecoveryOk, OwnerOk;
    }
  }

  lemma {:induction false} NothingRecorded(config: Config, runEpoch: nat, inputs: seq<Input>)
    requires !config.enabled
    ensures Run(NewShadow(config, runEpoch), inputs) == NewShadow(config, runEpoch)
  {
    if inputs != [] {
      NothingRecorded(config, runEpoch, inputs[..|inputs| - 1]);
    }
  }

  // ------------------------------------------------------------------------
  // The trail of observations.
  // ------------------------------------------------------------------------

  /** Acquisition always leaves exactly one observation. */
  lemma AcquireTrail(s: Shadow, target: LedgerTarget, reason: AcquireReason, preferred: bool, neutral: bool)
    ensures var t := Acquire(s, target, reason, preferred, neutral); s.trail <= t.trail && |t.trail| == |s.trail| + 1
  {
    hide Transition, Inserted, Evicted, FirstReusable;
  }

  lemma PlainTrail(s: Shadow, e: Event)
    requires IsPlain(e)
    ensures s.trail <= Plain(s, e).trail
  {
    hide Transition;
  }

  lemma DerivedTrail(s: Shadow, e: Event)
    ensures s.trail <= Derived(s, e).trail
  {
    hide Plain, OfSession, Acquire, CancelEach, CancelTrail, ActiveTrail, Transition, AnySelected;
    if IsPlain(e) {
      PlainTrail(s, e);
    } else if IsOfSession(e) {
      OfSessionTrail(s, e);
    } else {
      match e
      case AcquireRequested(target, reason) => AcquireTrail(s, target, reason, false, false);
      case ValidationTarget(target) => AcquireTrail(s, target, Consensus, false, true);
      case ValidationRecoveryTarget(target) =>
        if target.Some? {
          var r := s.recovery;
          AcquireTrail(s.(recovery := r.(target := if r.target.Some? then r.target else target, candidate := None)),
                       target.value, Consensus, false, true);
        }
      case ConsensusTarget(target, reason) => AcquireTrail(s.(latest := Some(target)), target, reason, true, false);
      case LclInstalled(lcl) => InstalledTrail(s, lcl);
      case StoreRotated(_) =>
      case FetchPackAvailable =>
      case RegistrySweep =>
      case ShutdownRequested =>
    }
  }

  lemma InstalledTrail(s: Shadow, lcl: LedgerIdentity)
    ensures s.trail <= Installed(s, lcl).trail
  {
    hide CancelEach, CancelTrail, Transition;
  }

  lemma OfSessionTrail(s: Shadow, e: Event)
    requires IsOfSession(e)
    ensures s.trail <= OfSession(s, e).trail && |OfSession(s, e).trail| == |s.trail| + 1
  {
    hide OfSession, Find;
    OfSessionMoves(s, e);
  }

  /** Recording only ever appends observations: none is rewritten or withdrawn. */
  lemma TrailGrows(s: Shadow, e: Event)
    ensures s.trail <= Recorded(s, e).trail
  {
    hide Derived, Acquire, Viable, Owner, Find;
    DerivedTrail(s, e);
    var d := Derived(s, e);
    var v := if d.recovery.session.Some? then d.(recovery := Recovery(d.recovery.candidate, None, None)) else d;
    if v.recovery.target.Some? {
      AcquireTrail(v, v.recovery.target.value, Consensus, false, true);
    }
  }

  // ------------------------------------------------------------------------
  // Sessions that ended.
  // ------------------------------------------------------------------------

  /** Every step without adoption. */
  lemma StepDescends(s: Shadow, input: Input)
    requires Usable(s.config) && MirrorOk(s) && RecoveryOk(s.recovery) && !input.Adopt?
    ensures var t := Step(s, input);
            && DescendsTwice(input, s, t)
            && t.nextId in {s.nextId, Succ(s.nextId), Succ(Succ(s.nextId))}
  {
    hide MirrorOk, RecoveryOk, OwnerOk, Armed, Compared, Recorded, Evolves, Born;
    if input.Observe? && s.config.enabled {
      RecordMoves(s, input.event);
    } else if input.Observe? {
      Disabled(s, input.event);
      SameDescends(input, s, s.nextId);
      OnceIsTwice(input, s, s);
    } else {
      QuietSteps(s, input);
      OnceIsTwice(input, s, Step(s, input));
    }
  }

  lemma OnceIsTwice(input: Input, s: Shadow, t: Shadow)
    requires Descends(input, s, s.nextId, t.mirror) && t.nextId == s.nextId
    ensures DescendsTwice(input, s, t)
  {
    Advances(s.nextId);
  }

  lemma Advances(id: nat)
    ensures Succ(id) != id
  {
  }

  /** The mirror's own counter can no longer produce the key: it is of another run, of another plan, or already counted. */
  predicate Spent(s: Shadow, key: SessionRef) {
    key.runEpoch != s.runEpoch || key.planEpoch != 1 || key.sessionId < s.nextId
  }

  /** The run still counts ids upward. */
  ghost predicate IdsBelow(s: Shadow, steps: nat) {
    s.nextId <= 1 + 2 * steps && forall m :: m in s.mirror ==> Spent(s, m.session)
  }

  /** Every production key adopted in the run was spent at that moment. */
  ghost predicate Careful(config: Config, runEpoch: nat, inputs: seq<Input>) {
    forall i :: 0 <= i < |inputs| && inputs[i].Adopt? ==>
      Spent(Run(NewShadow(config, runEpoch), inputs[..i]), inputs[i].session)
  }

  lemma CarefulInit(config: Config, runEpoch: nat, inputs: seq<Input>)
    requires inputs != [] && Careful(config, runEpoch, inputs)
    ensures var init, last := inputs[..|inputs| - 1], inputs[|inputs| - 1];
            && Careful(config, runEpoch, init)
            && (last.Adopt? ==> Spent(Run(NewShadow(config, runEpoch), init), last.session))
  {
    hide Spent, Run;
    var init := inputs[..|inputs| - 1];
    forall i | 0 <= i < |init| && init[i].Adopt?
      ensures Spent(Run(NewShadow(config, runEpoch), init[..i]), init[i].session)
    {
      assert init[..i] == inputs[..i];
    }
  }

  lemma NextIds(id: nat)
    requires id + 2 < U64
    ensures Succ(id) == id + 1 && Succ(Succ(id)) == id + 2
  {
  }

  /** Adoption only renames: an entry is one tracked before, or one of them under the adopted key, which nothing carried. */
  lemma AdoptedEntries(s: Shadow, production: SessionRef)
    requires MirrorOk(s)
    ensures var t := Adopted(s, production);
            && t == s.(mirror := t.mirror)
            && forall n :: n in t.mirror ==>
                 || n in s.mirror
                 || (!Tracked(s.mirror, production) && exists m :: m in s.mirror && n == m.(session := production))
  {
    hide Find, EntryOk;
    var i := LastLive(s.mirror, production.targetHash);
    if i < |s.mirror| {
      WithoutIs(s.mirror, i);
      InsertedIs(s.mirror[..i] + s.mirror[i + 1..], s.mirror[i].(session := production));
      hide Inserted, Sorted, LastLive;
      assert s.mirror[i] in s.mirror;
    }
  }

  lemma WithoutIs(mirror: seq<Mirror>, i: nat)
    requires Sorted(mirror) && i < |mirror|
    ensures var rest := mirror[..i] + mirror[i + 1..]; Sorted(rest) && |rest| == |mirror| - 1 && forall n :: n in rest ==> n in mirror
  {
    hide Before;
  }

  lemma SpentStep(s: Shadow, input: Input, steps: nat)
    requires Usable(s.config) && MirrorOk(s) && RecoveryOk(s.recovery)
    requires IdsBelow(s, steps) && 2 * steps + 3 < U64
    requires input.Adopt? ==> Spent(s, input.session)
    ensures IdsBelow(Step(s, input), steps + 1)
  {
    hide MirrorOk, RecoveryOk, EntryOk, Evolves, Armed, Compared, Recorded, Adopted;
    if input.Adopt? {
      AdoptedEntries(s, input.session);
    } else {
      StepDescends(s, input);
      StepEpoch(s, input);
      SpentDescends(input, s, Step(s, input), steps);
    }
  }

  lemma SpentDescends(input: Input, s: Shadow, t: Shadow, steps: nat)
    requires DescendsTwice(input, s, t) && IdsBelow(s, steps) && 2 * steps + 3 < U64
    requires t.runEpoch == s.runEpoch && t.nextId in {s.nextId, Succ(s.nextId), Succ(Succ(s.nextId))}
    ensures IdsBelow(t, steps + 1)
  {
    hide EntryOk, TimerStep, ExpiryStep, PhaseStep;
    NextIds(s.nextId);
  }

  lemma StepEpoch(s: Shadow, input: Input)
    requires Usable(s.config) && MirrorOk(s) && RecoveryOk(s.recovery)
    ensures Step(s, input).runEpoch == s.runEpoch
  {
    hide MirrorOk, RecoveryOk, OwnerOk, Descends, DescendsTwice, Armed, Compared, Recorded;
    match input
    case Observe(event) =>
      if s.config.enabled {
        RecordMoves(s, event);
      } else {
        Disabled(s, event);
      }
    case ArmExpiry(_) => QuietSteps(s, input);
    case CompareWith(_) => QuietSteps(s, input);
    case Adopt(_) =>
  }

  /** One step draws at most two ids. */
  lemma NextIdStep(s: Shadow, input: Input, steps: nat)
    requires Usable(s.config) && MirrorOk(s) && RecoveryOk(s.recovery)
    requires s.nextId <= 1 + 2 * steps && 2 * steps + 3 < U64
    ensures Step(s, input).nextId <= 1 + 2 * (steps + 1)
  {
    hide MirrorOk, RecoveryOk, DescendsTwice, Armed, Compared, Recorded;
    if !input.Adopt? {
      StepDescends(s, input);
      NextIds(s.nextId);
    }
  }

  lemma {:induction false} NextIdBelow(config: Config, runEpoch: nat, inputs: seq<Input>)
    requires Usable(config) && 2 * |inputs| + 1 < U64
    ensures Run(NewShadow(config, runEpoch), inputs).nextId <= 1 + 2 * |inputs|
  {
    hide Step;
    if inputs != [] {
      var init := inputs[..|inputs| - 1];
      NextIdBelow(config, runEpoch, init);
      RunsKeepMirror(config, runEpoch, init);
      hide MirrorOk, RecoveryOk;
      NextIdStep(Run(NewShadow(config, runEpoch), init), inputs[|inputs| - 1], |init|);
    }
  }

  /** As long as only spent keys are adopted, every tracked key is spent. */
  lemma {:induction false} IdsStayBelow(config: Config, runEpoch: nat, inputs: seq<Input>)
    requires Usable(config) && 2 * |inputs| + 1 < U64 && Careful(config, runEpoch, inputs)
    ensures IdsBelow(Run(NewShadow(config, runEpoch), inputs), |inputs|)
  {
    hide Step, Spent, Careful;
    if inputs != [] {
      var init := inputs[..|inputs| - 1];
      CarefulInit(config, runEpoch, inputs);
      IdsStayBelow(config, runEpoch, init);
      RunsKeepMirror(config, runEpoch, init);
      hide MirrorOk, RecoveryOk, IdsBelow;
      SpentStep(Run(NewShadow(config, runEpoch), init), inputs[|inputs| - 1], |init|);
    }
  }

  /** Whatever is tracked under the session's key is the session as it ended; its key is spent. */
  ghost predicate Ended(s: Shadow, m: Mirror) {
    && Spent(s, m.session)
    && forall n :: n in s.mirror && n.session == m.session ==> SameLife(m, n)
  }

  lemma EndedStep(s: Shadow, input: Input, m: Mirror)
    requires Usable(s.config) && MirrorOk(s) && RecoveryOk(s.recovery)
    requires m.phase.IsTerminal() && Ended(s, m) && s.nextId + 2 < U64
    requires input == Adopt(m.session) ==> Tracked(s.mirror, m.session)
    ensures Ended(Step(s, input), m)
  {
    hide MirrorOk, RecoveryOk, EntryOk, Evolves, Armed, Compared, Recorded, Adopted, Find;
    if input.Adopt? {
      AdoptedEntries(s, input.session);
    } else {
      StepDescends(s, input);
      StepEpoch(s, input);
      EndedDescends(input, s, Step(s, input), m);
    }
  }

  lemma EndedDescends(input: Input, s: Shadow, t: Shadow, m: Mirror)
    requires DescendsTwice(input, s, t) && m.phase.IsTerminal() && Ended(s, m) && s.nextId + 2 < U64
    requires t.runEpoch == s.runEpoch && t.nextId in {s.nextId, Succ(s.nextId), Succ(Succ(s.nextId))}
    ensures Ended(t, m)
  {
    hide EntryOk, ExpiryStep;
    NextIds(s.nextId);
  }

  /** Since the session ended, its key was not adopted anew once it had been evicted. */
  ghost predicate NotReadopted(config: Config, runEpoch: nat, inputs: seq<Input>, from: nat, key: SessionRef) {
    forall i :: from <= i < |inputs| && inputs[i] == Adopt(key) ==>
      Tracked(Run(NewShadow(config, runEpoch), inputs[..i]).mirror, key)
  }

  lemma NotReadoptedInit(config: Config, runEpoch: nat, inputs: seq<Input>, from: nat, key: SessionRef)
    requires inputs != [] && from < |inputs| && NotReadopted(config, runEpoch, inputs, from, key)
    ensures var init, last := inputs[..|inputs| - 1], inputs[|inputs| - 1];
            && NotReadopted(config, runEpoch, init, from, key)
            && (last == Adopt(key) ==> Tracked(Run(NewShadow(config, runEpoch), init).mirror, key))
  {
    hide Find, Run;
    var init := inputs[..|inputs| - 1];
    forall i | from <= i < |init| && init[i] == Adopt(key)
      ensures Tracked(Run(NewShadow(config, runEpoch), init[..i]).mirror, key)
    {
      assert init[..i] == inputs[..i];
    }
  }

  /**
    Before the id counter wraps, a session seen terminal under a spent key is
    never seen otherwise again: not in another phase, not with another outcome,
    and not under a reused key after eviction. Other sessions may be adopted
    under any key at any time; only the ended session's own key must not be
    adopted again after the session was evicted. `IdsStayBelow` says when every
    tracked key is spent.
  */
  lemma {:induction false} TerminalIsFinal(config: Config, runEpoch: nat, before: seq<Input>, after: seq<Input>, m: Mirror)
    requires Usable(config) && 2 * |before + after| + 1 < U64
    requires Spent(Run(NewShadow(config, runEpoch), before), m.session)
    requires NotReadopted(config, runEpoch, before + after, |before|, m.session)
    requires m in Run(NewShadow(config, runEpoch), before).mirror && m.phase.IsTerminal()
    ensures Ended(Run(NewShadow(config, runEpoch), before + after), m)
    decreases |after|
  {
    hide Step, NotReadopted, Spent;
    var all, s0 := before + after, NewShadow(config, runEpoch);
    if after == [] {
      assert all == before;
      RunsKeepMirror(config, runEpoch, before);
      OnlyOne(Run(s0, before), m);
    } else {
      var init := before + after[..|after| - 1];
      assert all[..|all| - 1] == init;
      NotReadoptedInit(config, runEpoch, all, |before|, m.session);
      TerminalIsFinal(config, runEpoch, before, after[..|after| - 1], m);
      RunsKeepMirror(config, runEpoch, init);
      NextIdBelow(config, runEpoch, init);
      hide Ended, MirrorOk, RecoveryOk;
      EndedStep(Run(s0, init), all[|all| - 1], m);
    }
  }

  lemma OnlyOne(s: Shadow, m: Mirror)
    requires MirrorOk(s) && m in s.mirror
    ensures forall n :: n in s.mirror && n.session == m.session ==> n == m && SameLife(m, n)
  {
    FoundAt(s.mirror, m);
    forall n | n in s.mirror && n.session == m.session
      ensures n == m
    {
      FoundAt(s.mirror, n);
    }
  }
}

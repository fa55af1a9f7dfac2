/**
  Which sessions one step of the shadow starts, and what that means for the
  sessions tracked before it: exactly when a step takes a session outside the
  session phase table, exactly when it replaces a session by a new one of the
  same key, and exactly when it brings back one that ended.
*/
module ShadowPhases {
  import opened Basics
  import opened Identity
  import opened Sessions
  import opened SyncPhases
  import opened ShadowSpec
  import opened ShadowRuns

  // ------------------------------------------------------------------------
  // The session phase table.
  // ------------------------------------------------------------------------

  /** `session_phase_transition`. */
  predicate LegalPhase(from: SessionPhase, to: SessionPhase) {
    || from == to
    || (from == Active && to == Dormant) || (from == Dormant && to == Active)
    || (from == Active && to == Persisting)
    || (from == Persisting && to == DurablePending)
    || (from == DurablePending && to == Complete)
    || (to.Failed? && (from == Active || from == Persisting))
    || (to.Cancelled? && (from == Active || from == Dormant || from == Persisting))
  }

  /** The event ends a session whose durable result only waits for its handoff. */
  predicate Revokes(m: Mirror, e: Event) {
    && m.phase == DurablePending
    && (|| (e.StoreRotated? && m.session.storeGeneration < e.generation)
        || e.ShutdownRequested?
        || e == WriteCompleted(m.session, WriteFailed) || e == WriteCompleted(m.session, WriteCancelled)
        || e == DurabilityFenced(m.session, FenceFailed))
  }

  /** The phase an event that asks for no ledger leaves a session in. */
  function PhaseAfter(m: Mirror, e: Event): SessionPhase {
    match e
    case WriteCompleted(key, written) =>
      if key != m.session || m.phase.IsTerminal() || m.phase == Dormant then m.phase
      else if written.WriteFailed? then Failed(WriteFailure)
      else if written.WriteCancelled? then Cancelled(CancelReason.StoreRotated)
      else if written.WriteAccepted? && m.phase == Active then Persisting
      else m.phase
    case DurabilityFenced(key, fenced) =>
      if key != m.session || m.phase.IsTerminal() || m.phase == Dormant then m.phase
      else if fenced.FenceFailed? then Failed(DurabilityFenceFailed)
      else if fenced.FencePassed? && m.phase == Persisting then DurablePending
      else m.phase
    case HandoffAcknowledged(key) => if key == m.session && m.phase == DurablePending then Complete else m.phase
    case LclInstalled(lcl) => PhaseCancelled(m, Superseding(lcl.hash))
    case StoreRotated(generation) => PhaseCancelled(m, OlderThan(generation))
    case RegistrySweep => PhaseCancelled(m, Expired)
    case ShutdownRequested => PhaseCancelled(m, AllLive)
    case _ => m.phase
  }

  function PhaseCancelled(m: Mirror, bulk: Bulk): SessionPhase {
    if Selected(m, bulk) then Cancelled(CauseOf(bulk)) else m.phase
  }

  /** The entry at `i` stayed at `i`, for the same hash, in the phase the event leaves it in. */
  ghost predicate StaysAt(s: Shadow, e: Event, t: Shadow, i: nat)
    requires i < |s.mirror|
  {
    && |t.mirror| == |s.mirror|
    && t.mirror[i].session == s.mirror[i].session && t.mirror[i].target.hash == s.mirror[i].target.hash
    && t.mirror[i].phase == PhaseAfter(s.mirror[i], e)
  }

  /** The place of a tracked key is the only entry of that key. */
  lemma OnlyPlace(s: Shadow, i: nat, key: SessionRef)
    requires MirrorOk(s) && i < |s.mirror|
    ensures s.mirror[i].session == key <==> Find(s.mirror, key) == i
  {
    var k := Find(s.mirror, key);
    if s.mirror[i].session == key {
      UniqueKeys(s.mirror, i, k);
    }
  }

  lemma WriteStays(s: Shadow, key: SessionRef, written: WriteResult, i: nat)
    requires MirrorOk(s) && i < |s.mirror|
    ensures StaysAt(s, WriteCompleted(key, written), WriteDone(s, key, written), i)
  {
    OnlyPlace(s, i, key);
    hide MirrorOk, Find;
  }

  lemma FenceStays(s: Shadow, key: SessionRef, fenced: FenceResult, i: nat)
    requires MirrorOk(s) && i < |s.mirror|
    ensures StaysAt(s, DurabilityFenced(key, fenced), FenceDone(s, key, fenced), i)
  {
    OnlyPlace(s, i, key);
    hide MirrorOk, Find;
  }

  lemma AckStays(s: Shadow, key: SessionRef, i: nat)
    requires MirrorOk(s) && i < |s.mirror|
    ensures StaysAt(s, HandoffAcknowledged(key), Acknowledged(s, key), i)
  {
    OnlyPlace(s, i, key);
    hide MirrorOk, Find;
  }

  /** The other session events move no phase. */
  lemma OtherSessionStays(s: Shadow, e: Event, i: nat)
    requires i < |s.mirror| && (e.PacketAdmitted? || e.ReadCompleted? || e.HandoffRejected? || e.TimerFired?)
    ensures StaysAt(s, e, OfSession(s, e), i)
  {
    hide Find;
  }

  lemma BulkStays(s: Shadow, e: Event, t: Shadow, bulk: Bulk, i: nat)
    requires i < |s.mirror| && t.mirror == CancelEach(s.mirror, bulk) && PhaseAfter(s.mirror[i], e) == PhaseCancelled(s.mirror[i], bulk)
    ensures StaysAt(s, e, t, i)
  {
    hide PhaseAfter;
    var m := s.mirror[i];
    assert t.mirror[i] == if Selected(m, bulk) then CancelWith(m, CauseOf(bulk)) else m;
    hide CancelEach, Selected;
  }

  lemma NoneSelected(s: Shadow, bulk: Bulk)
    requires !AnySelected(s.mirror, bulk)
    ensures CancelEach(s.mirror, bulk) == s.mirror
  {
  }

  /** What the events that concern many sessions do to the mirror. */
  lemma BulkMirror(s: Shadow, e: Event)
    ensures match e
            case LclInstalled(lcl) => Derived(s, e).mirror == CancelEach(s.mirror, Superseding(lcl.hash))
            case StoreRotated(generation) => Derived(s, e).mirror == CancelEach(s.mirror, OlderThan(generation))
            case RegistrySweep => Derived(s, e).mirror == CancelEach(s.mirror, Expired)
            case ShutdownRequested => Derived(s, e).mirror == CancelEach(s.mirror, AllLive)
            case FetchPackAvailable => Derived(s, e).mirror == s.mirror
            case _ => true
  {
    hide CancelEach, CancelTrail, ActiveTrail, AnySelected, Plain, OfSession, Acquire, RecoveryTarget, Applied, Transition;
    match e
    case LclInstalled(_) => InstalledDerives(s, e);
    case StoreRotated(generation) =>
      if !AnySelected(s.mirror, OlderThan(generation)) {
        NoneSelected(s, OlderThan(generation));
      }
    case ShutdownRequested =>
      if !AnySelected(s.mirror, AllLive) {
        NoneSelected(s, AllLive);
      }
    case _ =>
  }

  /** The event asks for a ledger. */
  predicate Acquires(e: Event) {
    e.AcquireRequested? || e.ValidationTarget? || e.ValidationRecoveryTarget? || e.ConsensusTarget?
  }

  lemma SessionStays(s: Shadow, e: Event, i: nat)
    requires MirrorOk(s) && i < |s.mirror| && IsOfSession(e)
    ensures StaysAt(s, e, OfSession(s, e), i)
  {
    hide MirrorOk, StaysAt, WriteDone, FenceDone, Acknowledged, Packet, ReadDone, HandoffRefused, TimerDone;
    match e
    case WriteCompleted(key, written) => WriteStays(s, key, written, i);
    case DurabilityFenced(key, fenced) => FenceStays(s, key, fenced, i);
    case HandoffAcknowledged(key) => AckStays(s, key, i);
    case _ => OtherSessionStays(s, e, i);
  }

  /** An event that asks for no ledger keeps every session at its place, in exactly this phase. */
  lemma EventStays(s: Shadow, e: Event, i: nat)
    requires MirrorOk(s) && i < |s.mirror| && !Acquires(e)
    ensures StaysAt(s, e, Derived(s, e), i)
  {
    hide MirrorOk, CancelEach, Plain, OfSession, StaysAt, PhaseCancelled, Installed, Rotated, ShutDown, FetchPack, CancelBulk;
    if IsPlain(e) {
      PlainDerives(s, e);
      Unmoved(s, e, Derived(s, e), i);
    } else if IsOfSession(e) {
      SessionStays(s, e, i);
    } else {
      BulkMirror(s, e);
      var t := Derived(s, e);
      match e
      case LclInstalled(lcl) => BulkStays(s, e, t, Superseding(lcl.hash), i);
      case StoreRotated(generation) => BulkStays(s, e, t, OlderThan(generation), i);
      case RegistrySweep => BulkStays(s, e, t, Expired, i);
      case ShutdownRequested => BulkStays(s, e, t, AllLive, i);
      case FetchPackAvailable => Unmoved(s, e, t, i);
    }
  }

  lemma Unmoved(s: Shadow, e: Event, t: Shadow, i: nat)
    requires i < |s.mirror| && t.mirror == s.mirror && (IsPlain(e) || e.FetchPackAvailable?)
    ensures StaysAt(s, e, t, i)
  {
  }

  /** The phase table is left exactly by revoking. */
  lemma LeavesExactlyWhenRevoked(m: Mirror, e: Event)
    ensures !LegalPhase(m.phase, PhaseAfter(m, e)) <==> Revokes(m, e)
  {
  }

  /**
    An event that asks for no ledger keeps every session at its place, and
    takes it outside the session phase table exactly when the session waits
    for its handoff and the event is a newer store, a shutdown, a failed or
    cancelled write of that session or a failed fence of that session.
  */
  lemma EventLeavesTable(s: Shadow, e: Event, i: nat)
    requires MirrorOk(s) && i < |s.mirror| && !Acquires(e)
    ensures var t := Derived(s, e);
            && |t.mirror| == |s.mirror| && t.mirror[i].session == s.mirror[i].session
            && (!LegalPhase(s.mirror[i].phase, t.mirror[i].phase) <==> Revokes(s.mirror[i], e))
  {
    hide MirrorOk, Derived, PhaseAfter, LegalPhase, Revokes;
    EventStays(s, e, i);
    LeavesExactlyWhenRevoked(s.mirror[i], e);
  }

  // ------------------------------------------------------------------------
  // Which sessions a record starts.
  // ------------------------------------------------------------------------

  /** The target an event acquires: a recovery target for another hash than the latched one only becomes the candidate. */
  function AcquiredTarget(s: Shadow, e: Event): Option<LedgerTarget> {
    match e
    case AcquireRequested(target, _) => Some(target)
    case ValidationTarget(target) => Some(target)
    case ConsensusTarget(target, _) => Some(target)
    case ValidationRecoveryTarget(target) =>
      if target.Some? && s.recovery.target.Some? && s.recovery.target.value.hash != target.value.hash then None else target
    case _ => None
  }

  /** The recovery target after an owner that ended is let go: the waiting candidate takes its place. */
  function LatchedTarget(s: Shadow): Option<LedgerTarget> {
    var r := s.recovery;
    if r.session.None? then r.target else if Live(s.mirror, r.session.value) then None else r.candidate
  }

  /** The target reconciling acquires: the latched one, when nothing owns it. */
  function UnownedTarget(s: Shadow): Option<LedgerTarget> {
    var target := LatchedTarget(s);
    if target.None? || Owner(s.mirror, target.value.hash).Some? then None else target
  }

  /** The key under which acquiring a target starts a session, if it starts one. */
  function Starting(s: Shadow, target: Option<LedgerTarget>): Option<SessionRef> {
    if target.Some? && s.usable && FirstReusable(s.mirror, target.value) == |s.mirror| then
      Some(MintRef(s, target.value.hash))
    else None
  }

  function StartedByEvent(s: Shadow, e: Event): Option<SessionRef> {
    Starting(s, AcquiredTarget(s, e))
  }

  function StartedByLatch(d: Shadow): Option<SessionRef> {
    Starting(d, UnownedTarget(d))
  }

  /** The keys of the sessions one record starts and still tracks at its end: the latch may evict what the event started. */
  function Starts(s: Shadow, e: Event): set<SessionRef> {
    var d := Derived(s, e);
    BothStarts(StartedByEvent(s, e), StartedByLatch(d), Evicted(d.mirror, d.config.maxSessions))
  }

  /** The keys started by the event, as far as kept, and by the latch. */
  function BothStarts(first: Option<SessionRef>, second: Option<SessionRef>, kept: seq<Mirror>): set<SessionRef> {
    (if second.Some? then {second.value} else {})
    + (if first.Some? && (second.None? || Tracked(kept, first.value)) then {first.value} else {})
  }

  /** A session as it starts. */
  ghost predicate Newborn(n: Mirror) {
    n.phase == Active && n.expiryTimer.None? && !n.sweepEligible && EntryOk(n)
  }

  /** A tracked session that a new one of its key would pass for a continuation of. */
  ghost predicate LooksNew(m: Mirror) {
    (m.phase == Active || m.phase == Dormant) && m.expiryTimer.None? && !m.sweepEligible
  }

  /** What a new session does to the mirror. */
  lemma MintedEntries(s: Shadow, target: LedgerTarget, reason: AcquireReason)
    requires MirrorOk(s) && s.config.maxSessions >= 1
    ensures var t, key, kept := Minted(s, target, reason), MintRef(s, target.hash), Evicted(s.mirror, s.config.maxSessions);
            && (forall n :: n in t.mirror ==> if n.session == key then Newborn(n) else n in kept && n in s.mirror)
            && (exists n :: n in t.mirror && n.session == key)
            && (forall n :: n in kept && n.session != key ==> n in t.mirror)
  {
    var m := Mirror(MintRef(s, target.hash), target, Active, reason, 0, None, false, None, true);
    var kept := Evicted(s.mirror, s.config.maxSessions);
    EvictedIs(s.mirror, s.config.maxSessions);
    InsertedIs(kept, m);
    assert m in Inserted(kept, m);
    hide Inserted, Evicted;
  }

  /** The session moved as the event lets it, and left the table exactly when the event revokes it. */
  ghost predicate Follows(e: Event, m: Mirror, n: Mirror) {
    Evolves(Observe(e), m, n) && (!LegalPhase(m.phase, n.phase) <==> Revokes(m, e))
  }

  /** Every tracked session is the one started, or follows one tracked before. */
  ghost predicate Entries(e: Event, s: Shadow, started: Option<SessionRef>, mirror: seq<Mirror>) {
    && (forall n :: n in mirror ==> if started == Some(n.session) then Newborn(n) else exists m :: m in s.mirror && Follows(e, m, n))
    && (started.Some? ==> exists n :: n in mirror && n.session == started.value)
  }

  lemma SameFollows(e: Event, m: Mirror)
    requires Acquires(e)
    ensures Follows(e, m, m)
  {
    EvolvesRefl(Observe(e), m);
  }

  lemma ReuseFollows(e: Event, s: Shadow, i: nat, target: LedgerTarget, preferred: bool)
    requires Acquires(e) && MirrorOk(s) && i < |s.mirror| && Reusable(s.mirror[i], target)
    ensures Entries(e, s, None, s.mirror[i := Reused(s.mirror[i], target, preferred)])
  {
    ReuseEvolves(Observe(e), s, i, target, preferred);
    var b := s.mirror[i := Reused(s.mirror[i], target, preferred)];
    assert Follows(e, s.mirror[i], b[i]) by { hide Evolves, MirrorOk, Reusable; }
    hide Evolves, MirrorOk, Reused, Reusable, Follows;
    forall n | n in b
      ensures exists m :: m in s.mirror && Follows(e, m, n)
    {
      var k :| 0 <= k < |b| && b[k] == n;
      assert s.mirror[k] in s.mirror;
      if k != i {
        SameFollows(e, n);
      }
    }
  }

  lemma UnmovedEntries(e: Event, s: Shadow)
    requires Acquires(e)
    ensures Entries(e, s, None, s.mirror)
  {
    hide Follows;
    forall n | n in s.mirror
      ensures Follows(e, n, n)
    {
      SameFollows(e, n);
    }
  }

  lemma AcquireEntries(e: Event, s: Shadow, target: LedgerTarget, reason: AcquireReason, preferred: bool, neutral: bool)
    requires Acquires(e) && MirrorOk(s) && s.config.maxSessions >= 1
    ensures Entries(e, s, Starting(s, Some(target)), Acquire(s, target, reason, preferred, neutral).mirror)
  {
    hide MirrorOk, Entries, Applied, Transition, Reused;
    UnmovedEntries(e, s);
    if s.usable {
      var i := FirstReusable(s.mirror, target);
      if i < |s.mirror| {
        ReuseFollows(e, s, i, target, preferred);
      } else {
        MintedFollows(e, s, target, reason);
        hide Minted;
      }
    }
  }

  lemma MintedFollows(e: Event, s: Shadow, target: LedgerTarget, reason: AcquireReason)
    requires Acquires(e) && MirrorOk(s) && s.config.maxSessions >= 1
    ensures Entries(e, s, Some(MintRef(s, target.hash)), Minted(s, target, reason).mirror)
  {
    MintedEntries(s, target, reason);
    hide Follows, MirrorOk, Minted, Evicted, MintRef, Newborn;
    forall n | n in s.mirror
      ensures Follows(e, n, n)
    {
      SameFollows(e, n);
    }
  }

  lemma NoBirth(input: Input, s: Shadow, mirror: seq<Mirror>, n: Mirror)
    requires Descends(input, s, s.nextId, mirror) && n in mirror
    ensures exists m :: m in s.mirror && Evolves(input, m, n)
  {
    hide Evolves, Born;
    Advances(s.nextId);
  }

  /** An event that asks for no ledger starts nothing. */
  lemma QuietEntries(s: Shadow, e: Event)
    requires MirrorOk(s) && s.config.maxSessions >= 1 && !Acquires(e)
    ensures Entries(e, s, None, Derived(s, e).mirror)
  {
    hide Derived, Evolves, MirrorOk, Descends, Derives, Follows;
    var t := Derived(s, e);
    DerivedMoves(s, e);
    KeepsId(s, e);
    forall n | n in t.mirror
      ensures exists m :: m in s.mirror && Follows(e, m, n)
    {
      NoBirth(Observe(e), s, t.mirror, n);
      var m :| m in s.mirror && Evolves(Observe(e), m, n);
      QuietEntry(s, e, m, n);
    }
  }

  lemma QuietEntry(s: Shadow, e: Event, m: Mirror, n: Mirror)
    requires MirrorOk(s) && !Acquires(e) && m in s.mirror && n in Derived(s, e).mirror && Evolves(Observe(e), m, n)
    ensures Follows(e, m, n)
  {
    var t := Derived(s, e);
    var k :| 0 <= k < |t.mirror| && t.mirror[k] == n;
    SameLength(s, e);
    EventLeavesTable(s, e, k);
    OnlyOne(s, m);
    hide Derived, MirrorOk, LegalPhase, Revokes, SameLife;
    assert s.mirror[k] in s.mirror;
  }

  lemma SameLength(s: Shadow, e: Event)
    requires MirrorOk(s) && !Acquires(e)
    ensures |Derived(s, e).mirror| == |s.mirror|
  {
    hide Plain, OfSession, CancelEach, CancelTrail, ActiveTrail, AnySelected, Installed, Transition, Find, OneMoves;
    if IsPlain(e) {
      PlainDerives(s, e);
    } else if IsOfSession(e) {
      SessionLength(s, e);
    } else {
      BulkMirror(s, e);
    }
  }

  lemma SessionLength(s: Shadow, e: Event)
    requires IsOfSession(e)
    ensures |OfSession(s, e).mirror| == |s.mirror|
  {
    OfSessionMoves(s, e);
    hide OfSession, Find;
  }

  lemma KeepsId(s: Shadow, e: Event)
    requires !Acquires(e)
    ensures Derived(s, e).nextId == s.nextId
  {
    hide Plain, OfSession, CancelEach, CancelTrail, ActiveTrail, AnySelected, Transition, Find, OneMoves;
    if IsPlain(e) {
      PlainDerives(s, e);
    } else if IsOfSession(e) {
      SessionId(s, e);
    }
  }

  lemma SessionId(s: Shadow, e: Event)
    requires IsOfSession(e)
    ensures OfSession(s, e).nextId == s.nextId
  {
    OfSessionMoves(s, e);
    hide OfSession, Find;
  }

  lemma RecoveryEntries(s: Shadow, e: Event)
    requires MirrorOk(s) && s.config.maxSessions >= 1 && e.ValidationRecoveryTarget?
    ensures Entries(e, s, StartedByEvent(s, e), RecoveryTarget(s, e.recovery).mirror)
  {
    hide MirrorOk, Entries, Acquire, FirstReusable;
    var r, target := s.recovery, e.recovery;
    UnmovedEntries(e, s);
    if AcquiredTarget(s, e).Some? {
      var from := s.(recovery := r.(target := if r.target.Some? then r.target else target, candidate := None));
      OkElsewhere(s, from);
      AcquireEntries(e, from, target.value, Consensus, false, true);
      EntriesFrom(e, from, s, Starting(from, target), RecoveryTarget(s, target).mirror);
    }
  }

  lemma EntriesFrom(e: Event, s: Shadow, t: Shadow, started: Option<SessionRef>, mirror: seq<Mirror>)
    requires Entries(e, s, started, mirror) && t.mirror == s.mirror
    ensures Entries(e, t, started, mirror)
  {
  }

  /** Deriving starts the session announced, and every other follows one tracked before. */
  lemma DerivedEntries(s: Shadow, e: Event)
    requires MirrorOk(s) && s.config.maxSessions >= 1
    ensures Entries(e, s, StartedByEvent(s, e), Derived(s, e).mirror)
  {
    if Acquires(e) {
      hide MirrorOk, Entries, Acquire, FirstReusable, RecoveryTarget;
      match e
      case AcquireRequested(target, reason) => AcquireEntries(e, s, target, reason, false, false);
      case ValidationTarget(target) => AcquireEntries(e, s, target, Consensus, false, true);
      case ValidationRecoveryTarget(_) => RecoveryEntries(s, e);
      case ConsensusTarget(target, reason) =>
        var from := s.(latest := Some(target));
        OkElsewhere(s, from);
        AcquireEntries(e, from, target, reason, true, false);
        EntriesFrom(e, from, s, Starting(from, Some(target)), Derived(s, e).mirror);
    } else {
      hide MirrorOk, Entries, Derived, FirstReusable;
      QuietEntries(s, e);
    }
  }

  /** Nothing is reusable for a hash nothing owns. */
  lemma NothingToReuse(d: Shadow, target: LedgerTarget)
    requires Owner(d.mirror, target.hash).None?
    ensures FirstReusable(d.mirror, target) == |d.mirror|
  {
    OwnerIs(d.mirror, target.hash);
    forall i | 0 <= i < |d.mirror|
      ensures !Reusable(d.mirror[i], target)
    {
      assert d.mirror[i] in d.mirror;
    }
  }

  lemma NeutralMirror(d: Shadow, recovery: Recovery, target: LedgerTarget)
    requires d.usable && FirstReusable(d.mirror, target) == |d.mirror|
    ensures Acquire(d.(recovery := recovery), target, Consensus, false, true).mirror == Minted(d, target, Consensus).mirror
  {
    hide FirstReusable, Inserted, Evicted;
  }

  /** Reconciling starts a session for an unowned latched target, and otherwise leaves the mirror alone. */
  lemma ReconcileMirror(d: Shadow)
    ensures Reconcile(d).mirror
            == if StartedByLatch(d).Some? then Minted(d, UnownedTarget(d).value, Consensus).mirror else d.mirror
  {
    hide Find, Owner, FirstReusable, Minted, Acquire;
    var r := d.recovery;
    if UnownedTarget(d).Some? {
      NothingToReuse(d, UnownedTarget(d).value);
      if d.usable {
        var released := if r.session.Some? then Recovery(r.candidate, None, None) else r;
        assert d == d.(recovery := r);
        NeutralMirror(d, released, UnownedTarget(d).value);
      }
    }
  }

  // ------------------------------------------------------------------------
  // One record.
  // ------------------------------------------------------------------------

  lemma TrackedIs(mirror: seq<Mirror>, key: SessionRef)
    ensures Tracked(mirror, key) <==> exists n :: n in mirror && n.session == key
  {
    var i := Find(mirror, key);
    assert i < |mirror| ==> mirror[i] in mirror;
  }

  /** What the latch starts is new, and it keeps what it does not evict. */
  ghost predicate Latched(d: Shadow, second: Option<SessionRef>, kept: seq<Mirror>, mirror: seq<Mirror>) {
    if second.Some? then
      && (forall n :: n in mirror ==> if n.session == second.value then Newborn(n) else n in kept && n in d.mirror)
      && (exists n :: n in mirror && n.session == second.value)
      && (forall n :: n in kept && n.session != second.value ==> n in mirror)
    else mirror == d.mirror
  }

  lemma LatchEntries(d: Shadow)
    requires MirrorOk(d) && d.config.maxSessions >= 1
    ensures Latched(d, StartedByLatch(d), Evicted(d.mirror, d.config.maxSessions), Promote(Reconcile(d)).mirror)
  {
    hide MirrorOk, Newborn, Reconcile, Promote;
    ReconcileMirror(d);
    PromoteMirror(Reconcile(d));
    if StartedByLatch(d).Some? {
      MintedEntries(d, UnownedTarget(d).value, Consensus);
    }
    hide Minted, Evicted, UnownedTarget, FirstReusable;
  }

  lemma TwoStages(e: Event, s: Shadow, d: Shadow, first: Option<SessionRef>, second: Option<SessionRef>, kept: seq<Mirror>, mirror: seq<Mirror>)
    requires Entries(e, s, first, d.mirror) && Latched(d, second, kept, mirror)
    ensures forall n :: n in mirror ==>
              if n.session in BothStarts(first, second, kept) then Newborn(n) else exists m :: m in s.mirror && Follows(e, m, n)
    ensures forall key :: key in BothStarts(first, second, kept) ==> exists n :: n in mirror && n.session == key
  {
    hide Newborn, Follows, Find;
    if first.Some? {
      TrackedIs(kept, first.value);
    }
  }

  /**
    After any record every tracked session either carries a key the record
    starts, and then is new, or follows a session tracked before it; and every
    key it starts is tracked.
  */
  lemma RecordEntries(s: Shadow, e: Event)
    requires s.config.enabled && s.config.maxSessions >= 1 && MirrorOk(s)
    ensures var t := Recorded(s, e);
            && (forall n :: n in t.mirror ==>
                  if n.session in Starts(s, e) then Newborn(n) else exists m :: m in s.mirror && Follows(e, m, n))
            && (forall key :: key in Starts(s, e) ==> exists n :: n in t.mirror && n.session == key)
  {
    hide Derived, Reconcile, Promote, MirrorOk, Descends, Derives, Entries, Latched, Newborn, Follows, StartedByEvent, StartedByLatch, Evicted, BothStarts;
    var d := Derived(s, e);
    DerivedMoves(s, e);
    assert MirrorOk(d) && d.config == s.config by { DerivesKeeps(s, d, e); }
    DerivedEntries(s, e);
    LatchEntries(d);
    TwoStages(e, s, d, StartedByEvent(s, e), StartedByLatch(d), Evicted(d.mirror, d.config.maxSessions), Recorded(s, e).mirror);
  }

  lemma DerivesKeeps(s: Shadow, t: Shadow, e: Event)
    requires DerivesOk(s, t, e)
    ensures MirrorOk(t) && t.config == s.config
  {
  }

  lemma PromoteMirror(r: Shadow)
    ensures Promote(r).mirror == r.mirror
  {
  }

  // ------------------------------------------------------------------------
  // One step.
  // ------------------------------------------------------------------------

  /** The step starts a session under this key. */
  predicate StartsKey(s: Shadow, input: Input, key: SessionRef) {
    s.config.enabled && input.Observe? && key in Starts(s, input.event)
  }

  /** The step renames a live session to this key, which nothing carries yet. */
  predicate AdoptsKey(s: Shadow, input: Input, key: SessionRef) {
    && s.config.enabled && input == Adopt(key)
    && !Tracked(s.mirror, key) && LastLive(s.mirror, key.targetHash) < |s.mirror|
  }

  lemma ArmedEntries(s: Shadow, input: Input)
    requires input.ArmExpiry? || input.CompareWith?
    ensures forall n :: n in Step(s, input).mirror ==> exists m :: m in s.mirror && m.session == n.session && m.phase == n.phase
  {
    hide Find;
    var t := Step(s, input);
    forall n | n in t.mirror
      ensures exists m :: m in s.mirror && m.session == n.session && m.phase == n.phase
    {
      var k :| 0 <= k < |t.mirror| && t.mirror[k] == n;
      assert s.mirror[k] in s.mirror;
    }
  }

  /** What an arming or comparing step does to one tracked session. */
  lemma QuietStepEntry(s: Shadow, input: Input, m: Mirror, n: Mirror)
    requires MirrorOk(s) && (input.ArmExpiry? || input.CompareWith?)
    requires m in s.mirror && n in Step(s, input).mirror && n.session == m.session
    ensures Evolves(input, m, n) && n.phase == m.phase
  {
    ArmedEntries(s, input);
    QuietSteps(s, input);
    OnlyOne(s, m);
    hide Step, MirrorOk, OwnerOk, Descends, SameLife;
    NoBirth(input, s, Step(s, input).mirror, n);
    var x :| x in s.mirror && Evolves(input, x, n);
    assert x == m;
  }

  /** What any step does to one tracked session. */
  lemma StepEntry(s: Shadow, input: Input, m: Mirror, n: Mirror)
    requires Usable(s.config) && MirrorOk(s)
    requires m in s.mirror && n in Step(s, input).mirror && n.session == m.session
    ensures if StartsKey(s, input, m.session) then Newborn(n)
            else
              && Evolves(input, m, n)
              && (!LegalPhase(m.phase, n.phase) <==> s.config.enabled && input.Observe? && Revokes(m, input.event))
  {
    hide MirrorOk, SameLife, Newborn, Recorded, Armed, Compared, Adopted, Starts, Evolves, Find, Revokes;
    OnlyOne(s, m);
    if input.Observe? && s.config.enabled {
      RecordEntries(s, input.event);
      if m.session !in Starts(s, input.event) {
        var x :| x in s.mirror && Follows(input.event, x, n);
        assert x.session == m.session by { FollowsKey(input.event, x, n); }
        assert x == m;
      }
    } else if input.Observe? {
      Disabled(s, input.event);
      EvolvesRefl(input, m);
    } else if input.Adopt? {
      AdoptedEntries(s, input.session);
      FoundAt(s.mirror, m) by { SortedMirror(s); }
      EvolvesRefl(input, m);
    } else {
      QuietStepEntry(s, input, m, n);
    }
  }

  lemma SortedMirror(s: Shadow)
    requires MirrorOk(s)
    ensures Sorted(s.mirror)
  {
  }

  lemma FollowsKey(e: Event, m: Mirror, n: Mirror)
    requires Follows(e, m, n)
    ensures n.session == m.session
  {
  }

  /**
    A step takes a tracked session outside the session phase table exactly in
    two ways: it starts another session under the same key while the old one
    is neither Active nor Dormant, or it starts none there and its event
    revokes a session that only waits for its handoff.
  */
  lemma LeavesTableExactlyWhen(s: Shadow, input: Input, m: Mirror, n: Mirror)
    requires Usable(s.config) && MirrorOk(s)
    requires m in s.mirror && n in Step(s, input).mirror && n.session == m.session
    ensures !LegalPhase(m.phase, n.phase) <==>
            if StartsKey(s, input, m.session) then m.phase != Active && m.phase != Dormant
            else s.config.enabled && input.Observe? && Revokes(m, input.event)
  {
    hide MirrorOk, Step, StartsKey, Evolves, Revokes;
    StepEntry(s, input, m, n);
  }

  /**
    The session tracked after a step under a key tracked before it continues
    the old one exactly when the step starts no session under that key, or the
    old one was no further than a new one.
  */
  lemma ContinuesExactlyWhen(s: Shadow, input: Input, m: Mirror, n: Mirror)
    requires Usable(s.config) && MirrorOk(s)
    requires m in s.mirror && n in Step(s, input).mirror && n.session == m.session
    ensures Evolves(input, m, n) <==> !StartsKey(s, input, m.session) || LooksNew(m)
  {
    StepEntry(s, input, m, n);
    EntriesOk(s);
    hide MirrorOk, Step, Starts, Revokes, LegalPhase, Find;
  }

  /** A session that ended continues only as it ended. */
  lemma EndedEvolves(input: Input, m: Mirror, x: Mirror, n: Mirror)
    requires m.phase.IsTerminal() && SameLife(m, x) && Evolves(input, x, n)
    ensures SameLife(m, n)
  {
  }

  /**
    A key under which only an ended session is tracked, or nothing any more,
    shows anything else after a step exactly when the step starts a session
    under it or adopts it.
  */
  lemma RevivedExactlyWhen(s: Shadow, input: Input, m: Mirror)
    requires Usable(s.config) && MirrorOk(s) && m.phase.IsTerminal()
    requires forall n :: n in s.mirror && n.session == m.session ==> SameLife(m, n)
    ensures (exists n :: n in Step(s, input).mirror && n.session == m.session && !SameLife(m, n))
            <==> StartsKey(s, input, m.session) || AdoptsKey(s, input, m.session)
  {
    if input.Observe? && s.config.enabled {
      RevivedByRecord(s, input.event, m);
    } else if input.Observe? {
      Disabled(s, input.event);
    } else if input.Adopt? {
      RevivedByAdoption(s, input.session, m);
    } else {
      NotRevived(s, input, m);
    }
    hide Recorded, Adopted, Armed, Compared, Starts, SameLife, MirrorOk;
  }

  lemma RevivedByRecord(s: Shadow, e: Event, m: Mirror)
    requires s.config.enabled && s.config.maxSessions >= 1 && MirrorOk(s) && m.phase.IsTerminal()
    requires forall n :: n in s.mirror && n.session == m.session ==> SameLife(m, n)
    ensures (exists n :: n in Recorded(s, e).mirror && n.session == m.session && !SameLife(m, n)) <==> m.session in Starts(s, e)
  {
    hide MirrorOk, Recorded, Starts, Evolves, LegalPhase, Revokes;
    RecordEntries(s, e);
    var t := Recorded(s, e);
    if m.session in Starts(s, e) {
      var n :| n in t.mirror && n.session == m.session;
      assert Newborn(n);
    } else {
      forall n | n in t.mirror && n.session == m.session
        ensures SameLife(m, n)
      {
        var x :| x in s.mirror && Follows(e, x, n);
        FollowsKey(e, x, n);
        EndedEvolves(Observe(e), m, x, n);
      }
    }
  }

  lemma RevivedByAdoption(s: Shadow, key: SessionRef, m: Mirror)
    requires MirrorOk(s) && m.phase.IsTerminal()
    requires forall n :: n in s.mirror && n.session == m.session ==> SameLife(m, n)
    ensures (exists n :: n in Adopted(s, key).mirror && n.session == m.session && !SameLife(m, n))
            <==> AdoptsKey(s, Adopt(key), m.session)
  {
    AdoptedEntries(s, key);
    if AdoptsKey(s, Adopt(key), m.session) {
      var i := LastLive(s.mirror, key.targetHash);
      WithoutIs(s.mirror, i);
      InsertedIs(s.mirror[..i] + s.mirror[i + 1..], s.mirror[i].(session := key));
      hide Inserted, MirrorOk, Find;
      assert s.mirror[i].(session := key) in Adopted(s, key).mirror;
    } else if s.config.enabled && key == m.session && !Tracked(s.mirror, key) {
      assert Adopted(s, key).mirror == s.mirror;
    }
  }

  lemma NotRevived(s: Shadow, input: Input, m: Mirror)
    requires MirrorOk(s) && m.phase.IsTerminal() && (input.ArmExpiry? || input.CompareWith?)
    requires forall n :: n in s.mirror && n.session == m.session ==> SameLife(m, n)
    ensures forall n :: n in Step(s, input).mirror && n.session == m.session ==> SameLife(m, n)
  {
    hide MirrorOk, Step, OwnerOk, Descends;
    QuietSteps(s, input);
    forall n | n in Step(s, input).mirror && n.session == m.session
      ensures SameLife(m, n)
    {
      NoBirth(input, s, Step(s, input).mirror, n);
      var x :| x in s.mirror && Evolves(input, x, n);
      EndedEvolves(input, m, x, n);
    }
  }

  // ------------------------------------------------------------------------
  // Runs that get there.
  // ------------------------------------------------------------------------

  /** A target, the key its first session gets, and a production key it may be adopted under. */
  const LOST := LedgerTarget(9, None)
  const FIRST := SessionRef(1, 1, 9, 1, 1)
  const ADOPTED := SessionRef(1, 2, 9, 1, 1)
  const ROOM_FOR_FOUR := Config(true, 4, 4)
  const ACQUIRE_LOST := Observe(AcquireRequested(LOST, Generic))

  /** With nothing latched and no consensus target, nothing is left to settle. */
  lemma NothingToSettle(s: Shadow)
    requires s.recovery == Recovery(None, None, None) && s.latest.None?
    ensures Promote(Reconcile(s)) == s
  {
  }

  lemma Acquired(s: Shadow)
    requires s.config == ROOM_FOR_FOUR && s.usable && s.phase != Stopping && s.runEpoch == 1 && s.generation == 1
    requires s.recovery == Recovery(None, None, None) && s.latest.None?
    requires |s.mirror| <= 1 && (s.mirror == [] || (s.mirror[0].phase.IsTerminal() && s.mirror[0].session == SessionRef(1, s.nextId, 9, 1, 1)))
    ensures var t := Step(s, ACQUIRE_LOST);
            && |t.mirror| == 1 && t.mirror[0].phase == Active && t.mirror[0].target == LOST
            && t.mirror[0].session == SessionRef(1, s.nextId, 9, 1, 1)
            && t == s.(mirror := t.mirror, nextId := Succ(s.nextId), phase := t.phase, trail := t.trail)
            && t.phase == Applied(s.phase, TargetRequired(LOST))
  {
    hide Promote, Reconcile;
    NothingToSettle(Derived(s, ACQUIRE_LOST.event));
    var m := Mirror(MintRef(s, 9), LOST, Active, Generic, 0, None, false, None, true);
    assert FirstReusable(s.mirror, LOST) == |s.mirror|;
    assert Evicted(s.mirror, 4) == s.mirror;
    assert Inserted(s.mirror, m) == [m];
  }

  /**
    A terminal mirror session can become active again once an adopted key
    meets the mirror's own counter: the second acquisition mints exactly the
    key the first one was adopted under.
  */
  lemma AdoptionRevivesTerminal()
    ensures var before := Run(NewShadow(ROOM_FOR_FOUR, 1),
                              [Observe(Connectivity(true)), ACQUIRE_LOST, Adopt(ADOPTED), Observe(WriteCompleted(ADOPTED, WriteFailed))]);
            var after := Step(before, ACQUIRE_LOST);
            && |before.mirror| == 1 && before.mirror[0].session == ADOPTED && before.mirror[0].phase == Failed(WriteFailure)
            && |after.mirror| == 1 && after.mirror[0].session == ADOPTED && after.mirror[0].phase == Active
  {
    hide Step;
    var s0 := NewShadow(ROOM_FOR_FOUR, 1);
    var s1 := Step(s0, Observe(Connectivity(true)));
    ConnectedOnly(s0);
    Acquired(s1);
    var s2 := Step(s1, ACQUIRE_LOST);
    var s3 := Step(s2, Adopt(ADOPTED));
    AdoptedOnly(s2);
    var s4 := Step(s3, Observe(WriteCompleted(ADOPTED, WriteFailed)));
    FailedOnly(s3);
    SecondId();
    Acquired(s4);
    FourSteps(s0, Observe(Connectivity(true)), ACQUIRE_LOST, Adopt(ADOPTED), Observe(WriteCompleted(ADOPTED, WriteFailed)));
  }

  lemma SecondId()
    ensures Succ(1) == 2 && Applied(Connected, TargetRequired(LOST)) == Syncing(LOST)
  {
  }

  lemma ConnectedOnly(s: Shadow)
    requires s == NewShadow(ROOM_FOR_FOUR, 1)
    ensures var t := Step(s, Observe(Connectivity(true))); t == s.(usable := true, phase := Connected, trail := t.trail)
  {
    hide Promote, Reconcile;
    NothingToSettle(Derived(s, Connectivity(true)));
  }

  lemma AdoptedOnly(s: Shadow)
    requires s.config == ROOM_FOR_FOUR && |s.mirror| == 1 && s.mirror[0].phase == Active && s.mirror[0].target == LOST
    requires s.mirror[0].session == SessionRef(1, 1, 9, 1, 1)
    ensures Step(s, Adopt(ADOPTED)) == s.(mirror := [s.mirror[0].(session := ADOPTED)])
  {
    assert Find(s.mirror, ADOPTED) == 1 by { assert s.mirror[1..] == []; }
    assert LastLive(s.mirror, 9) == 0;
    assert s.mirror[..0] + s.mirror[1..] == [];
  }

  lemma FailedOnly(s: Shadow)
    requires s.config == ROOM_FOR_FOUR && |s.mirror| == 1 && s.mirror[0].phase == Active && s.mirror[0].target == LOST
    requires s.mirror[0].session == ADOPTED && s.recovery == Recovery(None, None, None) && s.latest.None?
    ensures var t := Step(s, Observe(WriteCompleted(ADOPTED, WriteFailed)));
            && |t.mirror| == 1 && t.mirror[0].session == ADOPTED && t.mirror[0].phase == Failed(WriteFailure)
            && t == s.(mirror := t.mirror, trail := t.trail)
  {
    hide Promote, Reconcile;
    NothingToSettle(Derived(s, WriteCompleted(ADOPTED, WriteFailed)));
    assert Find(s.mirror, ADOPTED) == 0;
  }

  lemma FourSteps(s: Shadow, a: Input, b: Input, c: Input, d: Input)
    ensures Run(s, [a, b, c, d]) == Step(Step(Step(Step(s, a), b), c), d)
  {
    hide Step;
    assert [a, b, c, d][..3] == [a, b, c] && [a, b, c][..2] == [a, b] && [a, b][..1] == [a] && [a][..0] == [];
    assert Run(s, [a]) == Step(s, a);
    assert Run(s, [a, b]) == Step(Step(s, a), b);
    assert Run(s, [a, b, c]) == Step(Step(Step(s, a), b), c);
  }

  // The steps that take a session to DurablePending and then end it.
  const ACCEPT := Observe(WriteCompleted(FIRST, WriteAccepted))
  const FENCE := Observe(DurabilityFenced(FIRST, FencePassed))

  /** The one tracked session is the first for the lost target, in this phase, and nothing is left to settle. */
  ghost predicate OnlyFirst(s: Shadow, phase: SessionPhase) {
    && s.config == ROOM_FOR_FOUR && s.recovery == Recovery(None, None, None) && s.latest.None?
    && |s.mirror| == 1 && s.mirror[0].session == FIRST && s.mirror[0].phase == phase
  }

  lemma AcceptedOnly(s: Shadow)
    requires OnlyFirst(s, Active)
    ensures OnlyFirst(Step(s, ACCEPT), Persisting)
  {
    hide Promote, Reconcile;
    NothingToSettle(Derived(s, ACCEPT.event));
    assert Find(s.mirror, FIRST) == 0;
  }

  lemma FencedOnly(s: Shadow)
    requires OnlyFirst(s, Persisting)
    ensures OnlyFirst(Step(s, FENCE), DurablePending)
  {
    hide Promote, Reconcile;
    NothingToSettle(Derived(s, FENCE.event));
    assert Find(s.mirror, FIRST) == 0;
  }

  lemma RotatedOnly(s: Shadow)
    requires OnlyFirst(s, DurablePending)
    ensures OnlyFirst(Step(s, Observe(Event.StoreRotated(2))), Cancelled(CancelReason.StoreRotated))
  {
    hide Promote, Reconcile;
    NothingToSettle(Derived(s, Event.StoreRotated(2)));
    assert Selected(s.mirror[0], OlderThan(2));
  }

  /**
    A store rotation revokes a durable result in a real run: acquired, written
    and fenced, the session waits for its handoff, and the rotation cancels
    it, which the session phase table does not allow.
  */
  lemma RotationRevokesDurable()
    ensures var before := Run(NewShadow(ROOM_FOR_FOUR, 1), [Observe(Connectivity(true)), ACQUIRE_LOST, ACCEPT, FENCE]);
            var after := Step(before, Observe(Event.StoreRotated(2)));
            && |before.mirror| == 1 && before.mirror[0].session == FIRST && before.mirror[0].phase == DurablePending
            && |after.mirror| == 1 && after.mirror[0].session == FIRST
            && after.mirror[0].phase == Cancelled(CancelReason.StoreRotated)
            && !LegalPhase(before.mirror[0].phase, after.mirror[0].phase)
  {
    hide Step;
    var s0 := NewShadow(ROOM_FOR_FOUR, 1);
    ConnectedOnly(s0);
    var s1 := Step(s0, Observe(Connectivity(true)));
    Acquired(s1);
    var s2 := Step(s1, ACQUIRE_LOST);
    AcceptedOnly(s2);
    var s3 := Step(s2, ACCEPT);
    FencedOnly(s3);
    RotatedOnly(Step(s3, FENCE));
    FourSteps(s0, Observe(Connectivity(true)), ACQUIRE_LOST, ACCEPT, FENCE);
  }
}

/**
  The recovery latch, step by step and from the state before the step: which
  live sessions an event leaves alive, when a latched recovery target is given
  up, and which session the latch then starts.
*/
module ShadowLatch {
  import opened Basics
  import opened Identity
  import opened Sessions
  import opened SyncPhases
  import opened ShadowSpec
  import opened ShadowRuns
  import opened ShadowPhases

  // ------------------------------------------------------------------------
  // Which sessions stay alive.
  // ------------------------------------------------------------------------

  /** After the event a live session is tracked under the key: the one it starts there, or one it neither ends nor evicts. */
  predicate Survives(s: Shadow, e: Event, key: SessionRef) {
    var started := StartedByEvent(s, e);
    || started == Some(key)
    || (&& Live(s.mirror, key)
        && (started.Some? ==> Tracked(Evicted(s.mirror, s.config.maxSessions), key))
        && !PhaseAfter(s.mirror[Find(s.mirror, key)], e).IsTerminal())
  }

  lemma LiveIs(s: Shadow, key: SessionRef)
    requires MirrorOk(s)
    ensures Live(s.mirror, key) <==> exists m :: m in s.mirror && m.session == key && !m.phase.IsTerminal()
  {
    hide EntryOk;
    if Tracked(s.mirror, key) {
      assert s.mirror[Find(s.mirror, key)] in s.mirror;
      forall m | m in s.mirror && m.session == key
        ensures m == s.mirror[Find(s.mirror, key)]
      {
        FoundAt(s.mirror, m);
      }
    } else {
      TrackedIs(s.mirror, key);
    }
  }

  /** The same keys in the same places are found in the same places. */
  lemma {:induction false} FindSame(a: seq<Mirror>, b: seq<Mirror>, key: SessionRef)
    requires |a| == |b| && forall i :: 0 <= i < |a| ==> a[i].session == b[i].session
    ensures Find(a, key) == Find(b, key)
  {
    if a != [] && a[0].session != key {
      FindSame(a[1..], b[1..], key);
    }
  }

  lemma AllStay(s: Shadow, e: Event)
    requires MirrorOk(s) && !Acquires(e)
    ensures var a, b := s.mirror, Derived(s, e).mirror;
            && |a| == |b|
            && forall i :: 0 <= i < |a| ==>
                 a[i].session == b[i].session && a[i].target.hash == b[i].target.hash && b[i].phase == PhaseAfter(a[i], e)
  {
    hide MirrorOk, Derived, PhaseAfter;
    SameLength(s, e);
    forall i | 0 <= i < |s.mirror|
      ensures StaysAt(s, e, Derived(s, e), i)
    {
      EventStays(s, e, i);
    }
    var a, b := s.mirror, Derived(s, e).mirror;
    forall i | 0 <= i < |a|
      ensures a[i].session == b[i].session && a[i].target.hash == b[i].target.hash && b[i].phase == PhaseAfter(a[i], e)
    {
      assert StaysAt(s, e, Derived(s, e), i);
    }
  }

  lemma NothingStarted(s: Shadow, e: Event)
    requires !Acquires(e)
    ensures StartedByEvent(s, e).None?
  {
  }

  lemma EndedStays(m: Mirror, e: Event)
    ensures m.phase.IsTerminal() ==> PhaseAfter(m, e) == m.phase
  {
  }

  lemma QuietSurvives(s: Shadow, e: Event, key: SessionRef)
    requires MirrorOk(s) && !Acquires(e)
    ensures Live(Derived(s, e).mirror, key) <==> Survives(s, e, key)
  {
    hide MirrorOk, Derived, PhaseAfter, StartedByEvent;
    NothingStarted(s, e);
    AllStay(s, e);
    FindSame(s.mirror, Derived(s, e).mirror, key);
    hide Find;
    if Tracked(s.mirror, key) {
      EndedStays(s.mirror[Find(s.mirror, key)], e);
    }
  }

  /** Acquiring for a session that can be reused ends none. */
  lemma ReuseSurvives(s: Shadow, i: nat, target: LedgerTarget, preferred: bool, key: SessionRef)
    requires i < |s.mirror| && Reusable(s.mirror[i], target)
    ensures Live(s.mirror[i := Reused(s.mirror[i], target, preferred)], key) <==> Live(s.mirror, key)
  {
    var b := s.mirror[i := Reused(s.mirror[i], target, preferred)];
    FindSame(s.mirror, b, key);
    hide Find;
  }

  /** Starting a session ends none but may evict some. */
  lemma StartSurvives(s: Shadow, target: LedgerTarget, reason: AcquireReason, key: SessionRef)
    requires MirrorOk(s) && s.config.maxSessions >= 1
    ensures Live(Minted(s, target, reason).mirror, key) <==>
            || key == MintRef(s, target.hash)
            || (Live(s.mirror, key) && Tracked(Evicted(s.mirror, s.config.maxSessions), key))
  {
    var t, kept := Minted(s, target, reason), Evicted(s.mirror, s.config.maxSessions);
    MintDescends(CompareWith(Reference(key, None, None, None, 0)), s, target, reason);
    MintedEntries(s, target, reason);
    LiveIs(s, key);
    LiveIs(t, key);
    TrackedIs(kept, key);
    EvictedIs(s.mirror, s.config.maxSessions) by { SortedMirror(s); }
    if Live(s.mirror, key) {
      var m :| m in s.mirror && m.session == key && !m.phase.IsTerminal();
      OnlyOne(s, m);
    }
    hide MirrorOk, Minted, Evicted, Find, Descends, Persists, SameLife, EntryOk;
  }

  /** Alive in the new mirror is the session just started and what was alive and is not evicted for it. */
  ghost predicate KeepsAlive(s: Shadow, started: Option<SessionRef>, mirror: seq<Mirror>, key: SessionRef) {
    Live(mirror, key) <==>
    || started == Some(key)
    || (Live(s.mirror, key) && (started.Some? ==> Tracked(Evicted(s.mirror, s.config.maxSessions), key)))
  }

  lemma AcquireSurvives(s: Shadow, target: LedgerTarget, reason: AcquireReason, preferred: bool, neutral: bool, key: SessionRef)
    requires MirrorOk(s) && s.config.maxSessions >= 1
    ensures KeepsAlive(s, Starting(s, Some(target)), Acquire(s, target, reason, preferred, neutral).mirror, key)
  {
    hide MirrorOk, Live, Tracked, Reused, Reusable, Applied, Transition, Evicted;
    if s.usable {
      var i := FirstReusable(s.mirror, target);
      if i < |s.mirror| {
        ReuseSurvives(s, i, target, preferred, key);
      } else {
        StartSurvives(s, target, reason, key);
        hide Minted;
      }
    }
  }

  /** An event that asks for a ledger ends no session. */
  lemma AcquisitionEndsNone(m: Mirror, e: Event)
    requires Acquires(e)
    ensures PhaseAfter(m, e) == m.phase
  {
  }

  lemma AcquisitionKeeps(s: Shadow, e: Event, key: SessionRef)
    requires MirrorOk(s) && s.config.maxSessions >= 1 && Acquires(e)
    ensures KeepsAlive(s, StartedByEvent(s, e), Derived(s, e).mirror, key)
  {
    hide MirrorOk, Acquire, RecoveryTarget, FirstReusable, Evicted, Live, Tracked;
    match e
    case AcquireRequested(target, reason) => AcquireSurvives(s, target, reason, false, false, key);
    case ValidationTarget(target) => AcquireSurvives(s, target, Consensus, false, true, key);
    case ConsensusTarget(target, reason) =>
      OkElsewhere(s, s.(latest := Some(target)));
      AcquireSurvives(s.(latest := Some(target)), target, reason, true, false, key);
    case ValidationRecoveryTarget(target) => RecoverySurvives(s, target, key);
  }

  lemma AcquisitionSurvives(s: Shadow, e: Event, key: SessionRef)
    requires MirrorOk(s) && s.config.maxSessions >= 1 && Acquires(e)
    ensures Live(Derived(s, e).mirror, key) <==> Survives(s, e, key)
  {
    hide MirrorOk, Derived, StartedByEvent, PhaseAfter, Evicted, Find;
    AcquisitionKeeps(s, e, key);
    if Live(s.mirror, key) {
      AcquisitionEndsNone(s.mirror[Find(s.mirror, key)], e);
    }
  }

  lemma RecoverySurvives(s: Shadow, target: Option<LedgerTarget>, key: SessionRef)
    requires MirrorOk(s) && s.config.maxSessions >= 1
    ensures KeepsAlive(s, StartedByEvent(s, ValidationRecoveryTarget(target)), RecoveryTarget(s, target).mirror, key)
  {
    hide MirrorOk, Acquire, FirstReusable, Evicted, Live, Tracked;
    if AcquiredTarget(s, ValidationRecoveryTarget(target)).Some? {
      var r := s.recovery;
      var from := s.(recovery := r.(target := if r.target.Some? then r.target else target, candidate := None));
      OkElsewhere(s, from);
      AcquireSurvives(from, target.value, Consensus, false, true, key);
    }
  }

  /** Deriving any event leaves a live session under a key exactly when the state before says so. */
  lemma SurvivesExactlyWhen(s: Shadow, e: Event, key: SessionRef)
    requires MirrorOk(s) && s.config.maxSessions >= 1
    ensures Live(Derived(s, e).mirror, key) <==> Survives(s, e, key)
  {
    hide MirrorOk, Derived, Live, Survives;
    if Acquires(e) {
      AcquisitionSurvives(s, e, key);
    } else {
      QuietSurvives(s, e, key);
    }
  }

  // ------------------------------------------------------------------------
  // When a latched target is given up.
  // ------------------------------------------------------------------------

  /** The waiting candidate once the event is in: a target for another hash replaces it, any other clears it. */
  function CandidateAfter(s: Shadow, e: Event): Option<LedgerTarget> {
    if !e.ValidationRecoveryTarget? then s.recovery.candidate
    else if e.recovery.Some? && s.recovery.target.Some? && s.recovery.target.value.hash != e.recovery.value.hash then e.recovery
    else None
  }

  lemma AcquireRecovery(s: Shadow, target: LedgerTarget, reason: AcquireReason, preferred: bool, neutral: bool)
    ensures Acquire(s, target, reason, preferred, neutral).recovery == s.recovery
  {
    hide FirstReusable, Inserted, Evicted, Transition;
  }

  lemma InstalledRecovery(s: Shadow, lcl: LedgerIdentity)
    ensures Installed(s, lcl).recovery == s.recovery
  {
    hide CancelEach, CancelTrail, Transition;
  }

  /** Deriving keeps a latched target and its owner, and moves the candidate. */
  lemma DerivedRecovery(s: Shadow, e: Event)
    ensures var d := Derived(s, e).recovery;
            && d.session == s.recovery.session && d.candidate == CandidateAfter(s, e)
            && (s.recovery.target.Some? || !e.ValidationRecoveryTarget? ==> d.target == s.recovery.target)
  {
    hide Acquire, Plain, OfSession, Installed, CancelEach, CancelTrail, ActiveTrail, AnySelected, Transition;
    if IsPlain(e) {
      PlainDerives(s, e);
    } else if IsOfSession(e) {
      SessionRecovery(s, e);
    } else {
      match e
      case AcquireRequested(target, reason) => AcquireRecovery(s, target, reason, false, false);
      case ValidationTarget(target) => AcquireRecovery(s, target, Consensus, false, true);
      case ConsensusTarget(target, reason) => AcquireRecovery(s.(latest := Some(target)), target, reason, true, false);
      case ValidationRecoveryTarget(target) =>
        if AcquiredTarget(s, e).Some? {
          var r := s.recovery;
          AcquireRecovery(s.(recovery := r.(target := if r.target.Some? then r.target else target, candidate := None)),
                          target.value, Consensus, false, true);
        }
      case LclInstalled(lcl) => InstalledRecovery(s, lcl);
      case _ =>
    }
  }

  lemma SessionRecovery(s: Shadow, e: Event)
    requires IsOfSession(e)
    ensures OfSession(s, e).recovery == s.recovery
  {
    OfSessionMoves(s, e);
    hide OfSession, Find;
  }

  /** Reconciling gives a target up exactly when its stored owner is not alive; the candidate takes its place. */
  lemma ReconcileTarget(d: Shadow)
    ensures Promote(Reconcile(d)).recovery.target
            == if d.recovery.session.Some? && !Live(d.mirror, d.recovery.session.value) then d.recovery.candidate else d.recovery.target
  {
    hide Acquire, Live, Owner, Viable;
    var r := d.recovery;
    var t := if r.session.Some? then d.(recovery := Recovery(r.candidate, None, None)) else d;
    if t.recovery.target.Some? {
      AcquireRecovery(t, t.recovery.target.value, Consensus, false, true);
    }
  }

  lemma DerivedLatchOk(s: Shadow, e: Event)
    requires MirrorOk(s) && RecoveryOk(s.recovery) && s.config.maxSessions >= 1
    ensures RecoveryOk(Derived(s, e).recovery)
  {
    hide MirrorOk, RecoveryOk, Derived, Descends;
    DerivedMoves(s, e);
  }

  /**
    A record gives up a latched recovery target exactly when the target has a
    stored owner and no live session is left under the owner's key: the owner
    had ended, was evicted or was renamed by an adoption before, or the event
    ends or evicts it. The waiting candidate then takes its place.
  */
  lemma LatchGivenUpExactlyWhen(s: Shadow, e: Event)
    requires s.config.enabled && s.config.maxSessions >= 1
    requires MirrorOk(s) && RecoveryOk(s.recovery) && s.recovery.target.Some?
    ensures var r, t := s.recovery, Recorded(s, e).recovery;
            && (t.target != r.target <==> r.session.Some? && !Survives(s, e, r.session.value))
            && (t.target != r.target ==> t.target == CandidateAfter(s, e))
  {
    hide MirrorOk, Derived, Reconcile, Promote, Live, Survives, CandidateAfter;
    DerivedRecovery(s, e);
    DerivedLatchOk(s, e);
    ReconcileTarget(Derived(s, e));
    if s.recovery.session.Some? {
      SurvivesExactlyWhen(s, e, s.recovery.session.value);
    }
  }

  // ------------------------------------------------------------------------
  // What the latch starts.
  // ------------------------------------------------------------------------

  predicate UsableAfter(s: Shadow, e: Event) {
    match e
    case Connectivity(usable) => usable
    case TransportConnectivity(usable) => usable
    case _ => s.usable
  }

  function GenerationAfter(s: Shadow, e: Event): nat {
    if e.StoreRotated? then e.generation else s.generation
  }

  /** Some session for the hash is alive once the event is in. */
  predicate OwnedAfter(s: Shadow, e: Event, hash: Hash) {
    exists i :: 0 <= i < |s.mirror| && s.mirror[i].target.hash == hash && !PhaseAfter(s.mirror[i], e).IsTerminal()
  }

  /** The target to own once the event is in: the latched one without an owner yet, or the candidate in place of a lost one. */
  function TargetAfter(s: Shadow, e: Event): Option<LedgerTarget> {
    var r := s.recovery;
    if r.session.None? then r.target else if Survives(s, e, r.session.value) then None else r.candidate
  }

  /** The session an event that asks for no ledger makes the latch start. */
  function LatchStart(s: Shadow, e: Event): Option<SessionRef> {
    var target := TargetAfter(s, e);
    if target.Some? && UsableAfter(s, e) && !OwnedAfter(s, e, target.value.hash) then
      Some(SessionRef(s.runEpoch, s.nextId, target.value.hash, 1, GenerationAfter(s, e)))
    else None
  }

  lemma PlainUsable(s: Shadow, e: Event)
    requires IsPlain(e)
    ensures Plain(s, e).usable == UsableAfter(s, e) && Plain(s, e).generation == s.generation
  {
    hide Transition;
  }

  lemma InstalledUsable(s: Shadow, lcl: LedgerIdentity)
    ensures Installed(s, lcl).usable == s.usable && Installed(s, lcl).generation == s.generation && Installed(s, lcl).runEpoch == s.runEpoch
  {
    hide CancelEach, CancelTrail, Transition;
  }

  lemma SessionUsable(s: Shadow, e: Event)
    requires IsOfSession(e)
    ensures var t := OfSession(s, e); t.usable == s.usable && t.generation == s.generation && t.runEpoch == s.runEpoch
  {
    OfSessionMoves(s, e);
    hide OfSession, Find;
  }

  lemma QuietFrame(s: Shadow, e: Event)
    requires !Acquires(e)
    ensures var d := Derived(s, e); d.usable == UsableAfter(s, e) && d.generation == GenerationAfter(s, e) && d.runEpoch == s.runEpoch
  {
    hide Plain, OfSession, Installed, CancelEach, CancelTrail, ActiveTrail, AnySelected, Transition;
    if IsPlain(e) {
      PlainDerives(s, e);
      PlainUsable(s, e);
    } else if IsOfSession(e) {
      SessionUsable(s, e);
    } else if e.LclInstalled? {
      InstalledUsable(s, e.lcl);
    }
  }

  lemma QuietOwner(s: Shadow, e: Event, hash: Hash)
    requires MirrorOk(s) && !Acquires(e)
    ensures Owner(Derived(s, e).mirror, hash).Some? <==> OwnedAfter(s, e, hash)
  {
    hide MirrorOk, Derived, PhaseAfter, Owner;
    var t := Derived(s, e);
    AllStay(s, e);
    OwnerIs(t.mirror, hash);
    if Owner(t.mirror, hash).Some? {
      var m :| m in t.mirror && !m.phase.IsTerminal() && m.target.hash == hash;
      var i :| 0 <= i < |t.mirror| && t.mirror[i] == m;
      assert s.mirror[i].target.hash == hash;
    } else {
      forall i | 0 <= i < |s.mirror|
        ensures s.mirror[i].target.hash != hash || PhaseAfter(s.mirror[i], e).IsTerminal()
      {
        assert t.mirror[i] in t.mirror;
      }
    }
  }

  lemma QuietTarget(s: Shadow, e: Event)
    requires MirrorOk(s) && !Acquires(e)
    ensures LatchedTarget(Derived(s, e)) == TargetAfter(s, e)
  {
    hide MirrorOk, Derived, Live, Survives;
    DerivedRecovery(s, e);
    if s.recovery.session.Some? {
      QuietSurvives(s, e, s.recovery.session.value);
    }
  }

  /**
    An event that asks for no ledger makes the record start a session exactly
    when it leaves the latch with a target to own, no live session for it and
    usable peers; the key is told from the state before.
  */
  lemma StartsExactlyWhen(s: Shadow, e: Event)
    requires MirrorOk(s) && !Acquires(e)
    ensures Starts(s, e) == if LatchStart(s, e).Some? then {LatchStart(s, e).value} else {}
  {
    hide MirrorOk, Derived, LatchedTarget, TargetAfter, OwnedAfter, UsableAfter, GenerationAfter, Owner, FirstReusable, Evicted, Find;
    NothingStarted(s, e);
    QuietTarget(s, e);
    QuietFrame(s, e);
    KeepsId(s, e);
    var d, target := Derived(s, e), TargetAfter(s, e);
    if target.Some? {
      QuietOwner(s, e, target.value.hash);
      if Owner(d.mirror, target.value.hash).None? {
        NothingToReuse(d, target.value);
      }
    }
  }

  // ------------------------------------------------------------------------
  // A run that gives up a target whose session is alive.
  // ------------------------------------------------------------------------

  const LATCH_LOST := Observe(ValidationRecoveryTarget(Some(LOST)))

  lemma LatchedFirst(s: Shadow)
    requires s == NewShadow(ROOM_FOR_FOUR, 1).(usable := true, phase := Connected, trail := s.trail)
    ensures var t := Step(s, LATCH_LOST);
            && t.config == ROOM_FOR_FOUR && t.recovery == Recovery(Some(LOST), Some(FIRST), None) && t.latest.None?
            && |t.mirror| == 1 && t.mirror[0].session == FIRST && t.mirror[0].phase == Active && t.mirror[0].target == LOST
  {
    var m := Mirror(FIRST, LOST, Active, Consensus, 0, None, false, None, true);
    var d := Derived(s, LATCH_LOST.event);
    assert d.mirror == [m];
    assert Owner([m], 9) == Some(FIRST) by { assert [m][1..] == []; }
  }

  lemma LetGo(s: Shadow)
    requires s.config == ROOM_FOR_FOUR && s.recovery == Recovery(Some(LOST), Some(FIRST), None) && s.latest.None?
    requires |s.mirror| == 1 && s.mirror[0].session == ADOPTED
    ensures var t := Step(s, Observe(Heartbeat)); t.recovery == Recovery(None, None, None) && t.mirror == s.mirror
  {
    assert Find(s.mirror, FIRST) == 1 by { assert s.mirror[1..] == []; }
  }

  /**
    Adoption renames the owner and leaves its old key in the latch. The next
    event, whatever it is about, gives the target up, although its session is
    alive under the new key.
  */
  lemma AdoptionDropsLatch()
    ensures var before := Run(NewShadow(ROOM_FOR_FOUR, 1), [Observe(Connectivity(true)), LATCH_LOST, Adopt(ADOPTED)]);
            var after := Step(before, Observe(Heartbeat));
            && before.recovery == Recovery(Some(LOST), Some(FIRST), None)
            && |before.mirror| == 1 && before.mirror[0].session == ADOPTED && before.mirror[0].phase == Active
            && before.mirror[0].target == LOST
            && after.recovery == Recovery(None, None, None) && after.mirror == before.mirror
  {
    hide Step;
    var s0 := NewShadow(ROOM_FOR_FOUR, 1);
    ConnectedOnly(s0);
    var s1 := Step(s0, Observe(Connectivity(true)));
    LatchedFirst(s1);
    var s2 := Step(s1, LATCH_LOST);
    AdoptedOnly(s2);
    LetGo(Step(s2, Adopt(ADOPTED)));
    ThreeSteps(s0, Observe(Connectivity(true)), LATCH_LOST, Adopt(ADOPTED));
  }

  lemma ThreeSteps(s: Shadow, a: Input, b: Input, c: Input)
    ensures Run(s, [a, b, c]) == Step(Step(Step(s, a), b), c)
  {
    hide Step;
    assert [a, b, c][..2] == [a, b] && [a, b][..1] == [a] && [a][..0] == [];
    assert Run(s, [a]) == Step(s, a);
    assert Run(s, [a, b]) == Step(Step(s, a), b);
  }
}

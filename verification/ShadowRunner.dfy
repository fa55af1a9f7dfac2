/**
  The shadow runner itself: an object that updates its mirror, phase,
  recovery fields, counters and bounded observation buffer in place. Every
  method is proved to do what its function in `ShadowSpec` says.
*/
module ShadowRunners {
  import opened Basics
  import opened Identity
  import opened Sessions
  import opened SyncPhases
  import opened ShadowSpec
  import ShadowRuns

  /** The observations of one kind. */
  function CountOf(trail: seq<Observation>, kind: Kind): nat {
    if trail == [] then 0 else CountOf(trail[..|trail| - 1], kind) + if trail[|trail| - 1].kind == kind then 1 else 0
  }

  /** The observations that are neither a match nor stale. */
  function Disagreements(trail: seq<Observation>): nat {
    if trail == [] then 0
    else
      var kind := trail[|trail| - 1].kind;
      Disagreements(trail[..|trail| - 1]) + if kind.Match? || kind.StaleEvent? then 0 else 1
  }

  /** Every observation is counted exactly once. */
  lemma {:induction false} CountsAddUp(trail: seq<Observation>)
    ensures CountOf(trail, Match) + Disagreements(trail) + CountOf(trail, StaleEvent) == |trail|
  {
    if trail != [] {
      CountsAddUp(trail[..|trail| - 1]);
    }
  }

  /** The most recent entries, up to a cap. */
  function Recent(trail: seq<Observation>, cap: nat): seq<Observation> {
    if |trail| <= cap then trail else trail[|trail| - cap..]
  }

  /** The place of a new entry is past one of another, smaller key. */
  lemma InsertedPast(front: seq<Mirror>, rest: seq<Mirror>, m: Mirror)
    requires rest != [] && rest[0].session != m.session && !Before(m.session, rest[0].session)
    ensures front + Inserted(rest, m) == (front + [rest[0]]) + Inserted(rest[1..], m)
  {
    hide Before;
    assert Inserted(rest, m) == [rest[0]] + Inserted(rest[1..], m);
  }

  /** Or here, in place of an entry of the same key. */
  lemma InsertedHere(front: seq<Mirror>, rest: seq<Mirror>, m: Mirror)
    requires rest == [] || rest[0].session == m.session || Before(m.session, rest[0].session)
    ensures front + Inserted(rest, m)
            == front + [m] + if rest != [] && rest[0].session == m.session then rest[1..] else rest
  {
    hide Before;
    assert Inserted(rest, m) == [m] + if rest != [] && rest[0].session == m.session then rest[1..] else rest;
  }

  /** Inserts in session order, replacing an entry of the same key. */
  method InsertedInOrder(mirror: seq<Mirror>, m: Mirror) returns (longer: seq<Mirror>)
    ensures longer == Inserted(mirror, m)
  {
    hide Before, Inserted;
    var i := 0;
    assert mirror[..0] + Inserted(mirror[0..], m) == Inserted(mirror, m) by { assert mirror[0..] == mirror; }
    while i < |mirror| && mirror[i].session != m.session && !Before(m.session, mirror[i].session)
      invariant i <= |mirror|
      invariant mirror[..i] + Inserted(mirror[i..], m) == Inserted(mirror, m)
    {
      InsertedPast(mirror[..i], mirror[i..], m);
      assert mirror[..i] + [mirror[i]] == mirror[..i + 1] && mirror[i..][1..] == mirror[i + 1..];
      i := i + 1;
    }
    InsertedHere(mirror[..i], mirror[i..], m);
    if i < |mirror| && mirror[i].session == m.session {
      assert mirror[i..][1..] == mirror[i + 1..];
      longer := mirror[..i] + [m] + mirror[i + 1..];
    } else {
      longer := mirror[..i] + [m] + mirror[i..];
    }
  }

  /** Drops the oldest entries until the rest fits. */
  method Trimmed(observations: seq<Observation>, cap: nat) returns (kept: seq<Observation>)
    ensures kept == Recent(observations, cap)
  {
    kept := observations;
    while |kept| > cap
      invariant |Recent(observations, cap)| <= |kept| <= |observations|
      invariant kept == observations[|observations| - |kept|..]
    {
      kept := kept[1..];
    }
  }

  /** Appending and trimming at every step keeps the most recent entries of all. */
  lemma RecentAppend(trail: seq<Observation>, cap: nat, o: Observation)
    ensures Recent(Recent(trail, cap) + [o], cap) == Recent(trail + [o], cap)
  {
  }

  /** The counters and the buffer, as functions of everything pushed. */
  datatype Tally = Tally(matches: nat, disagreements: nat, staleEvents: nat, observations: seq<Observation>)

  ghost function TallyOf(trail: seq<Observation>, drained: nat, cap: nat): Tally
    requires drained <= |trail|
  {
    Tally(CountOf(trail, Match), Disagreements(trail), CountOf(trail, StaleEvent), Recent(trail[drained..], cap))
  }

  /** One more observation: one counter moves, and the buffer takes it in. */
  lemma TallyGrows(trail: seq<Observation>, drained: nat, cap: nat, o: Observation)
    requires drained <= |trail|
    ensures var was := TallyOf(trail, drained, cap);
            TallyOf(trail + [o], drained, cap)
            == Tally(was.matches + if o.kind == Match then 1 else 0,
                      was.disagreements + if o.kind == Match || o.kind == StaleEvent then 0 else 1,
                      was.staleEvents + if o.kind == StaleEvent then 1 else 0,
                      Recent(was.observations + [o], cap))
  {
    assert (trail + [o])[..|trail|] == trail;
    assert (trail + [o])[drained..] == trail[drained..] + [o];
    RecentAppend(trail[drained..], cap, o);
  }

  /** One step of a bulk cancellation. */
  ghost function CancelOne(s: Shadow, bulk: Bulk, i: nat): Shadow
    requires i < |s.mirror|
  {
    var m := s.mirror[i];
    if !Selected(m, bulk) then s
    else
      Note(s.(mirror := s.mirror[i := CancelWith(m, CauseOf(bulk))]), Some(m.session), Match, Some(s.phase),
           Some(CancelledOutcome(CauseOf(bulk))), if bulk.OlderThan? || bulk.AllLive? then m.depth else s.depth)
  }

  lemma CancelOneLength(s: Shadow, bulk: Bulk, i: nat)
    requires i < |s.mirror|
    ensures |CancelOne(s, bulk, i).mirror| == |s.mirror|
  {
  }

  /** The steps from the `i`-th session on. */
  ghost function CancelFrom(s: Shadow, bulk: Bulk, i: nat): Shadow
    requires i <= |s.mirror|
    decreases |s.mirror| - i
  {
    if i == |s.mirror| then s
    else CancelOneLength(s, bulk, i); CancelFrom(CancelOne(s, bulk, i), bulk, i + 1)
  }

  lemma {:induction false} SameTrail(s: Shadow, t: Shadow, mirror: seq<Mirror>, bulk: Bulk)
    requires t.phase == s.phase && t.depth == s.depth
    ensures CancelTrail(t, mirror, bulk) == CancelTrail(s, mirror, bulk)
  {
    if mirror != [] {
      SameTrail(s, t, mirror[1..], bulk);
    }
  }

  /** One step cancels at most the entry at `i`. */
  lemma CancelOneMirror(s: Shadow, bulk: Bulk, i: nat)
    requires i < |s.mirror|
    ensures var t, rest := CancelOne(s, bulk, i), s.mirror[i..];
            && t == s.(mirror := t.mirror, trail := t.trail) && |t.mirror| == |s.mirror|
            && t.mirror[i + 1..] == rest[1..]
            && t.mirror[..i + 1] == s.mirror[..i] + CancelEach(rest, bulk)[..1]
  {
    hide Selected, CancelWith, CauseOf, CancelTrail;
    var t, rest := CancelOne(s, bulk, i), s.mirror[i..];
    assert rest[0] == s.mirror[i];
    assert t.mirror[..i + 1] == s.mirror[..i] + [t.mirror[i]];
    assert CancelEach(rest, bulk)[..1] == [CancelEach(rest, bulk)[0]] == [t.mirror[i]];
  }

  /** And leaves at most its observation. */
  lemma CancelOneTrail(s: Shadow, bulk: Bulk, i: nat)
    requires i < |s.mirror|
    ensures var t, rest := CancelOne(s, bulk, i), s.mirror[i..];
            s.trail + CancelTrail(s, rest, bulk) == t.trail + CancelTrail(s, rest[1..], bulk)
  {
    hide Selected, CancelWith, CauseOf, CancelEach;
    var t, rest := CancelOne(s, bulk, i), s.mirror[i..];
    assert rest[0] == s.mirror[i];
    assert t.trail + CancelTrail(s, rest[1..], bulk) == s.trail + CancelTrail(s, rest, bulk);
  }

  lemma CancelOneIs(s: Shadow, bulk: Bulk, i: nat)
    requires i < |s.mirror|
    ensures var t, rest := CancelOne(s, bulk, i), s.mirror[i..];
            && t == s.(mirror := t.mirror, trail := t.trail) && |t.mirror| == |s.mirror|
            && t.mirror[i + 1..] == rest[1..]
            && t.mirror[..i + 1] == s.mirror[..i] + CancelEach(rest, bulk)[..1]
            && s.trail + CancelTrail(s, rest, bulk) == t.trail + CancelTrail(s, rest[1..], bulk)
  {
    hide CancelOne, CancelEach, CancelTrail;
    CancelOneMirror(s, bulk, i);
    CancelOneTrail(s, bulk, i);
  }

  lemma EachHead(mirror: seq<Mirror>, bulk: Bulk)
    requires mirror != []
    ensures CancelEach(mirror, bulk) == CancelEach(mirror, bulk)[..1] + CancelEach(mirror[1..], bulk)
  {
    hide Selected, CancelWith, CauseOf;
  }

  lemma {:induction false} CancelFromMirror(s: Shadow, bulk: Bulk, i: nat)
    requires i <= |s.mirror|
    ensures CancelFrom(s, bulk, i).mirror == s.mirror[..i] + CancelEach(s.mirror[i..], bulk)
    decreases |s.mirror| - i
  {
    hide CancelOne, CancelEach, CancelTrail, Selected, CancelWith, CauseOf;
    if i < |s.mirror| {
      CancelOneIs(s, bulk, i);
      var t, rest := CancelOne(s, bulk, i), s.mirror[i..];
      CancelFromMirror(t, bulk, i + 1);
      EachHead(rest, bulk);
      var each := CancelEach(rest, bulk);
      assert s.mirror[..i] + (each[..1] + CancelEach(rest[1..], bulk)) == s.mirror[..i] + each[..1] + CancelEach(rest[1..], bulk);
    }
  }

  lemma {:induction false} CancelFromTrail(s: Shadow, bulk: Bulk, i: nat)
    requires i <= |s.mirror|
    ensures CancelFrom(s, bulk, i).trail == s.trail + CancelTrail(s, s.mirror[i..], bulk)
    decreases |s.mirror| - i
  {
    hide CancelOne, CancelEach;
    if i < |s.mirror| {
      CancelOneIs(s, bulk, i);
      var t := CancelOne(s, bulk, i);
      CancelFromTrail(t, bulk, i + 1);
      SameTrail(s, t, s.mirror[i..][1..], bulk);
    }
  }

  lemma {:induction false} CancelFromElsewhere(s: Shadow, bulk: Bulk, i: nat)
    requires i <= |s.mirror|
    ensures var t := CancelFrom(s, bulk, i); t == s.(mirror := t.mirror, trail := t.trail)
    decreases |s.mirror| - i
  {
    hide CancelOne, CancelEach, CancelTrail;
    if i < |s.mirror| {
      CancelOneIs(s, bulk, i);
      CancelFromElsewhere(CancelOne(s, bulk, i), bulk, i + 1);
    }
  }

  /** Session by session is the same as all at once. */
  lemma CancelFromIs(s: Shadow, bulk: Bulk)
    ensures CancelFrom(s, bulk, 0) == CancelBulk(s, bulk)
  {
    hide CancelFrom, CancelEach, CancelTrail;
    CancelFromMirror(s, bulk, 0);
    CancelFromTrail(s, bulk, 0);
    CancelFromElsewhere(s, bulk, 0);
    assert s.mirror[0..] == s.mirror && s.mirror[..0] == [];
  }

  /** One step of reporting the active sessions. */
  ghost function ReportOne(s: Shadow, i: nat): Shadow
    requires i < |s.mirror|
  {
    var m := s.mirror[i];
    if m.phase != Active then s else Note(s, Some(m.session), Match, Some(s.phase), None, m.depth)
  }

  ghost function ReportFrom(s: Shadow, i: nat): Shadow
    requires i <= |s.mirror|
    decreases |s.mirror| - i
  {
    if i == |s.mirror| then s else ReportFrom(ReportOne(s, i), i + 1)
  }

  lemma {:induction false} SameActiveTrail(s: Shadow, t: Shadow, mirror: seq<Mirror>)
    requires t.phase == s.phase
    ensures ActiveTrail(t, mirror) == ActiveTrail(s, mirror)
  {
    if mirror != [] {
      SameActiveTrail(s, t, mirror[1..]);
    }
  }

  lemma {:induction false} ReportFromIs(s: Shadow, i: nat)
    requires i <= |s.mirror|
    ensures ReportFrom(s, i) == s.(trail := s.trail + ActiveTrail(s, s.mirror[i..]))
    decreases |s.mirror| - i
  {
    if i == |s.mirror| {
      assert s.trail + [] == s.trail;
    } else {
      var t, rest := ReportOne(s, i), s.mirror[i..];
      assert rest[0] == s.mirror[i] && rest[1..] == s.mirror[i + 1..];
      ReportFromIs(t, i + 1);
      SameActiveTrail(s, t, rest[1..]);
      assert t.trail + ActiveTrail(s, rest[1..]) == s.trail + ActiveTrail(s, rest);
    }
  }

  ghost predicate Consistent(s: Shadow) {
    ShadowRuns.MirrorOk(s) && ShadowRuns.RecoveryOk(s.recovery)
  }

  lemma AdoptionConsistent(s: Shadow, production: SessionRef)
    requires Consistent(s)
    ensures Consistent(Adopted(s, production))
  {
    hide ShadowRuns.MirrorOk;
    ShadowRuns.AdoptedOk(s, production);
  }

  lemma ArmingConsistent(s: Shadow, op: OperationRef)
    requires Consistent(s)
    ensures Consistent(Armed(s, op))
  {
    hide ShadowRuns.MirrorOk, ShadowRuns.RecoveryOk, ShadowRuns.Descends, ShadowRuns.OwnerOk, Armed;
    ShadowRuns.ArmedKeeps(s, op);
  }

  lemma ComparingConsistent(s: Shadow, reference: Reference)
    requires Consistent(s)
    ensures Consistent(Compared(s, reference))
  {
    hide ShadowRuns.MirrorOk, ShadowRuns.RecoveryOk, ShadowRuns.Descends, ShadowRuns.OwnerOk, Compared;
    ShadowRuns.QuietSteps(s, ShadowRuns.CompareWith(reference));
  }

  lemma RecordConsistent(s: Shadow, e: Event)
    requires Consistent(s) && (s.config.enabled ==> s.config.maxSessions >= 1)
    ensures Consistent(Recorded(s, e)) && (s.config.enabled ==> ShadowRuns.OwnerOk(Recorded(s, e)))
  {
    hide ShadowRuns.MirrorOk, ShadowRuns.RecoveryOk, ShadowRuns.OwnerOk, Recorded;
    ShadowRuns.StepOk(s, ShadowRuns.Observe(e));
  }

  class ShadowRunner {
    const config: Config
    const runEpoch: nat
    var phase: SyncPhase
    var nextId: nat
    var generation: nat
    var usable: bool
    var latest: Option<LedgerTarget>
    var recoveryTarget: Option<LedgerTarget>
    var recoverySession: Option<SessionRef>
    var recoveryCandidate: Option<LedgerTarget>
    var mirror: seq<Mirror>
    var depth: nat
    var observations: seq<Observation>
    var matches: nat
    var disagreements: nat
    var staleEvents: nat
    ghost var trail: seq<Observation>
    ghost var drained: nat

    ghost function State(): Shadow
      reads this
    {
      Shadow(config, runEpoch, phase, nextId, generation, usable, latest,
             Recovery(recoveryTarget, recoverySession, recoveryCandidate), mirror, depth, trail)
    }

    /**
      The counters count every observation ever pushed; the buffer holds the
      most recent ones since it was last drained, up to its cap.
    */
    ghost predicate Valid()
      reads this
    {
      && drained <= |trail|
      && Tally(matches, disagreements, staleEvents, observations) == TallyOf(trail, drained, config.maxBuffered)
    }

    /** The mirror is ordered, bounded and self-consistent, and the recovery latch agrees with itself. */
    ghost predicate Sound()
      reads this
    {
      Consistent(State())
    }

    constructor (config: Config, runEpoch: nat)
      ensures Valid() && drained == 0 && Sound()
      ensures State() == NewShadow(config, runEpoch)
    {
      this.config, this.runEpoch := config, runEpoch;
      phase, nextId, generation, usable, latest := Disconnected, 1, 1, false, None;
      recoveryTarget, recoverySession, recoveryCandidate := None, None, None;
      mirror, depth, observations, matches, disagreements, staleEvents := [], 0, [], 0, 0, 0;
      trail, drained := [], 0;
    }

    /** Appends an observation, counts it, and drops what no longer fits. */
    method Push(session: Option<SessionRef>, kind: Kind, derived: Option<SyncPhase>, outcome: Option<Outcome>, at: nat)
      requires Valid()
      modifies this
      ensures Valid() && drained == old(drained)
      ensures State() == Note(old(State()), session, kind, derived, outcome, at)
      ensures matches + disagreements + staleEvents == old(matches + disagreements + staleEvents) + 1
    {
      hide TallyOf, Recent;
      var observation := Observation(session, kind, derived, outcome, at);
      TallyGrows(trail, drained, config.maxBuffered, observation);
      if kind == Match {
        matches := matches + 1;
      } else if kind == StaleEvent {
        staleEvents := staleEvents + 1;
      } else {
        disagreements := disagreements + 1;
      }
      trail := trail + [observation];
      observations := Trimmed(observations + [observation], config.maxBuffered);
    }

    method DrainObservations() returns (out: seq<Observation>)
      requires Valid()
      modifies this`observations, this`drained
      ensures Valid() && State() == old(State())
      ensures out == old(observations) && observations == [] && drained == |trail|
    {
      out := observations;
      observations := [];
      drained := |trail|;
    }

    /** Applies a fact to the phase and says whether the table allowed it. */
    method ApplyFact(fact: Option<Fact>) returns (kind: Kind)
      requires Valid()
      modifies this`phase
      ensures Valid()
      ensures State() == old(State()).(phase := if fact.Some? then Applied(old(phase), fact.value) else old(phase))
      ensures kind == if fact.Some? && Transition(old(phase), fact.value).None? then DerivedRejected else Match
    {
      hide Transition;
      if fact.None? {
        return Match;
      }
      var next := Transition(phase, fact.value);
      if next.None? {
        return DerivedRejected;
      }
      phase := next.value;
      return Match;
    }

    method Conclude(session: Option<SessionRef>, fact: Option<Fact>, at: nat)
      requires Valid()
      modifies this
      ensures Valid() && drained == old(drained)
      ensures State() == Facted(old(State()), session, fact, at)
    {
      hide Transition;
      var kind := ApplyFact(fact);
      Push(session, kind, Some(phase), None, at);
    }

    // ----------------------------------------------------------------------
    // The mirror.
    // ----------------------------------------------------------------------

    method Locate(key: SessionRef) returns (i: nat)
      ensures i == Find(mirror, key)
    {
      i := 0;
      while i < |mirror| && mirror[i].session != key
        invariant i <= |mirror|
        invariant i + Find(mirror[i..], key) == Find(mirror, key)
      {
        assert mirror[i..][0] == mirror[i] && mirror[i..][1..] == mirror[i + 1..];
        i := i + 1;
      }
      if i < |mirror| {
        assert mirror[i..][0] == mirror[i];
      }
    }

    method InsertMirror(m: Mirror)
      requires Valid()
      modifies this`mirror
      ensures Valid() && State() == old(State()).(mirror := Inserted(old(mirror), m))
    {
      hide TallyOf, Inserted;
      mirror := InsertedInOrder(mirror, m);
    }

    /** Draws a key and makes room for its session; the oldest sessions go first. */
    method MintSession(hash: Hash) returns (key: SessionRef)
      requires Valid() && config.maxSessions >= 1
      modifies this`mirror, this`nextId
      ensures Valid() && key == MintRef(old(State()), hash)
      ensures State() == old(State()).(nextId := Succ(old(nextId)), mirror := Evicted(old(mirror), config.maxSessions))
    {
      hide TallyOf;
      key := SessionRef(runEpoch, nextId, hash, 1, generation);
      nextId := Succ(nextId);
      while |mirror| >= config.maxSessions
        modifies this`mirror
        invariant Evicted(mirror, config.maxSessions) == Evicted(old(mirror), config.maxSessions)
        decreases |mirror|
      {
        mirror := mirror[1..];
      }
    }

    method FindReusable(target: LedgerTarget) returns (i: nat)
      ensures i == FirstReusable(mirror, target)
    {
      i := 0;
      while i < |mirror| && !Reusable(mirror[i], target)
        invariant i <= |mirror|
        invariant i + FirstReusable(mirror[i..], target) == FirstReusable(mirror, target)
      {
        assert mirror[i..][0] == mirror[i] && mirror[i..][1..] == mirror[i + 1..];
        i := i + 1;
      }
      if i < |mirror| {
        assert mirror[i..][0] == mirror[i];
      }
    }

    method StartSession(target: LedgerTarget, reason: AcquireReason) returns (key: SessionRef)
      requires Valid() && config.maxSessions >= 1
      modifies this
      ensures Valid() && drained == old(drained) && key == MintRef(old(State()), target.hash)
      ensures State() == Minted(old(State()), target, reason)
    {
      hide Evicted, Inserted;
      key := MintSession(target.hash);
      InsertMirror(Mirror(key, target, Active, reason, 0, None, false, None, true));
    }

    method DeriveAcquire(target: LedgerTarget, reason: AcquireReason, preferred: bool, neutral: bool)
      requires Valid() && config.maxSessions >= 1
      modifies this
      ensures Valid() && drained == old(drained)
      ensures State() == Acquire(old(State()), target, reason, preferred, neutral)
    {
      hide Valid, Transition, Applied, Facted, Minted;
      if !usable {
        Push(None, DerivedRejected, Some(phase), None, depth);
        return;
      }
      var fact := if neutral || phase.Tracking? || phase.Full? then None else Some(TargetRequired(target));
      var i := FindReusable(target);
      var key;
      if i < |mirror| {
        key := mirror[i].session;
        SetMirror(i, Reused(mirror[i], target, preferred));
      } else {
        key := StartSession(target, reason);
      }
      Conclude(Some(key), fact, 0);
    }

    method SetMirror(i: nat, m: Mirror)
      requires Valid() && i < |mirror|
      modifies this`mirror
      ensures Valid() && State() == old(State()).(mirror := old(mirror)[i := m])
    {
      mirror := mirror[i := m];
    }

    // ----------------------------------------------------------------------
    // Validation recovery.
    // ----------------------------------------------------------------------

    method DeriveValidationRecoveryTarget(target: Option<LedgerTarget>)
      requires Valid() && config.maxSessions >= 1
      modifies this
      ensures Valid() && drained == old(drained)
      ensures State() == RecoveryTarget(old(State()), target)
    {
      hide Acquire, TallyOf;
      if target.None? {
        recoveryCandidate := None;
        Push(None, Match, Some(phase), None, depth);
        return;
      }
      if recoveryTarget.Some? {
        if recoveryTarget.value.hash != target.value.hash {
          recoveryCandidate := target;
          Push(recoverySession, Match, Some(phase), None, depth);
          return;
        }
        recoveryCandidate := None;
      } else {
        recoveryTarget := target;
        recoveryCandidate := None;
      }
      DeriveAcquire(target.value, Consensus, false, true);
    }

    /** The live session for a hash with the least id. */
    method FindOwner(hash: Hash) returns (owner: Option<SessionRef>)
      ensures owner == Owner(mirror, hash)
    {
      owner := None;
      var i := |mirror|;
      while i > 0
        invariant 0 <= i <= |mirror| && owner == Owner(mirror[i..], hash)
      {
        i := i - 1;
        assert mirror[i..][0] == mirror[i] && mirror[i..][1..] == mirror[i + 1..];
        var m := mirror[i];
        if !m.phase.IsTerminal() && m.target.hash == hash
           && (owner.None? || m.session.sessionId <= owner.value.sessionId)
        {
          owner := Some(m.session);
        }
      }
      assert mirror[0..] == mirror;
    }

    method ReconcileValidationRecoveryOwner()
      requires Valid() && config.maxSessions >= 1
      modifies this
      ensures Valid() && drained == old(drained)
      ensures State() == Reconcile(old(State()))
    {
      hide Acquire, Owner, Valid;
      if recoverySession.Some? {
        var i := Locate(recoverySession.value);
        if i < |mirror| && !mirror[i].phase.IsTerminal() {
          return;
        }
        ReleaseOwner();
      }
      if recoveryTarget.None? {
        return;
      }
      LatchOwner(recoveryTarget.value);
    }

    method ReleaseOwner()
      requires Valid()
      modifies this`recoverySession, this`recoveryTarget, this`recoveryCandidate
      ensures Valid() && State() == old(State()).(recovery := Recovery(old(recoveryCandidate), None, None))
    {
      hide TallyOf;
      recoverySession := None;
      recoveryTarget := recoveryCandidate;
      recoveryCandidate := None;
    }

    method LatchOwner(target: LedgerTarget)
      requires Valid() && config.maxSessions >= 1 && recoveryTarget == Some(target)
      modifies this
      ensures Valid() && drained == old(drained)
      ensures var t := old(State());
              State() == if Owner(t.mirror, target.hash).Some? then t.(recovery := t.recovery.(session := Owner(t.mirror, target.hash)))
                         else if t.usable then
                           var u := Acquire(t, target, Consensus, false, true);
                           u.(recovery := u.recovery.(session := Owner(u.mirror, target.hash)))
                         else t
    {
      hide Acquire, Owner;
      var owner := FindOwner(target.hash);
      if owner.Some? {
        recoverySession := owner;
      } else if usable {
        DeriveAcquire(target, Consensus, false, true);
        owner := FindOwner(target.hash);
        recoverySession := owner;
      }
    }

    method HasViable(hash: Hash) returns (viable: bool)
      ensures viable <==> Viable(mirror, hash)
    {
      viable := false;
      var i := 0;
      while i < |mirror|
        invariant 0 <= i <= |mirror|
        invariant viable <==> Viable(mirror[..i], hash)
      {
        var m := mirror[i];
        assert mirror[..i + 1] == mirror[..i] + [m];
        if m.target.hash == hash && !m.phase.Failed? && !m.phase.Cancelled? {
          viable := true;
          assert mirror[..i + 1][i] == m;
        }
        i := i + 1;
      }
      assert mirror[..|mirror|] == mirror;
    }

    method PromoteLatestViableSyncingAnchor()
      requires Valid()
      modifies this
      ensures Valid() && drained == old(drained)
      ensures State() == Promote(old(State()))
    {
      hide Viable;
      if !phase.Syncing? {
        return;
      }
      var anchored := HasViable(phase.target.hash);
      if anchored || latest.None? || latest.value.hash == phase.target.hash {
        return;
      }
      var promotable := HasViable(latest.value.hash);
      if promotable {
        phase := Syncing(latest.value);
        Push(None, Match, Some(phase), None, depth);
      }
    }

    // ----------------------------------------------------------------------
    // One session.
    // ----------------------------------------------------------------------

    method PushStale(key: SessionRef)
      requires Valid()
      modifies this
      ensures Valid() && drained == old(drained)
      ensures State() == Stale(old(State()), key)
    {
      Push(Some(key), StaleEvent, None, None, depth);
    }

    method Touch(i: nat, m: Mirror, outcome: Option<Outcome>)
      requires Valid() && i < |mirror|
      modifies this
      ensures Valid() && drained == old(drained)
      ensures State() == Touched(old(State()), i, m, outcome)
    {
      hide TallyOf;
      SetMirror(i, m);
      Push(Some(m.session), Match, Some(phase), outcome, m.depth);
    }

    method DerivePacket(key: SessionRef)
      requires Valid()
      modifies this
      ensures Valid() && drained == old(drained)
      ensures State() == Packet(old(State()), key)
    {
      hide TallyOf, Find;
      var i := Locate(key);
      if i == |mirror| || mirror[i].phase != Active {
        PushStale(key);
        return;
      }
      depth := depth + 1;
      Touch(i, mirror[i].(depth := mirror[i].depth + 1, scanning := true), None);
    }

    method DeriveRead(key: SessionRef, kind: OperationKind, read: ReadResult)
      requires Valid()
      modifies this
      ensures Valid() && drained == old(drained)
      ensures State() == ReadDone(old(State()), key, kind, read)
    {
      hide Valid, Find;
      var i := Locate(key);
      if i == |mirror| || mirror[i].phase != Active || read.ReadStale? || read.ReadCancelled? {
        PushStale(key);
        return;
      }
      var scanning := true;
      if kind == HeaderRead {
        scanning := read.Found?;
      }
      Touch(i, mirror[i].(scanning := scanning), None);
    }

    method DeriveWrite(key: SessionRef, written: WriteResult)
      requires Valid()
      modifies this
      ensures Valid() && drained == old(drained)
      ensures State() == WriteDone(old(State()), key, written)
    {
      hide Valid, Find, Touched, Stale;
      var i := Locate(key);
      if i == |mirror| || mirror[i].phase.IsTerminal() || mirror[i].phase == Dormant || written.WriteStale? {
        PushStale(key);
        return;
      }
      var m := mirror[i].(scanning := false);
      match written {
        case WriteAccepted =>
          if m.phase == Active {
            Touch(i, m.(phase := Persisting), None);
            return;
          }
        case WriteFailed =>
          Touch(i, FailWith(m, WriteFailure), Some(FailedOutcome(WriteFailure)));
          return;
        case WriteCancelled =>
          Touch(i, CancelWith(m, CancelReason.StoreRotated), Some(CancelledOutcome(CancelReason.StoreRotated)));
          return;
        case WriteStale =>
      }
      Push(Some(key), DerivedRejected, Some(phase), None, depth);
    }

    method DeriveDurability(key: SessionRef, fenced: FenceResult)
      requires Valid()
      modifies this
      ensures Valid() && drained == old(drained)
      ensures State() == FenceDone(old(State()), key, fenced)
    {
      hide Valid, Find, Touched, Stale;
      var i := Locate(key);
      if i == |mirror| || mirror[i].phase.IsTerminal() || mirror[i].phase == Dormant || fenced.FenceStale? {
        PushStale(key);
        return;
      }
      var m := mirror[i];
      if fenced.FencePassed? && m.phase == Persisting {
        Touch(i, m.(phase := DurablePending), None);
      } else if fenced.FenceFailed? {
        Touch(i, FailWith(m, DurabilityFenceFailed), Some(FailedOutcome(DurabilityFenceFailed)));
      } else {
        Push(Some(key), DerivedRejected, Some(phase), None, depth);
      }
    }

    method DeriveAck(key: SessionRef)
      requires Valid()
      modifies this
      ensures Valid() && drained == old(drained)
      ensures State() == Acknowledged(old(State()), key)
    {
      hide Valid, Find, Touched, Stale;
      var i := Locate(key);
      if i == |mirror| {
        PushStale(key);
        return;
      }
      var m := mirror[i];
      if m.phase == DurablePending {
        Touch(i, m.(phase := Complete, outcome := Some(DurableOutcome)), Some(DurableOutcome));
      } else {
        Push(Some(key), if m.phase.IsTerminal() then StaleEvent else DerivedRejected, Some(phase), None, m.depth);
      }
    }

    method DeriveHandoffRejected(key: SessionRef)
      requires Valid()
      modifies this
      ensures Valid() && drained == old(drained)
      ensures State() == HandoffRefused(old(State()), key)
    {
      hide Valid, Find;
      var i := Locate(key);
      var pending := i < |mirror| && mirror[i].phase == DurablePending;
      Push(Some(key), if pending then Match else StaleEvent, Some(phase), None, depth);
    }

    method DeriveTimer(op: OperationRef, expiry: bool)
      requires Valid()
      modifies this
      ensures Valid() && drained == old(drained)
      ensures State() == TimerDone(old(State()), op, expiry)
    {
      hide Valid, Find, Touched, Stale;
      var i := Locate(op.session);
      if i == |mirror| {
        PushStale(op.session);
        return;
      }
      var m := mirror[i];
      if expiry {
        var exact := m.expiryTimer.Some? && m.expiryTimer.value.IsExpectedFor(op);
        if !(m.phase == Active || m.phase == Dormant) || !exact {
          PushStale(op.session);
        } else {
          Touch(i, m.(expiryTimer := None, sweepEligible := true), None);
        }
      } else if m.phase == Active || m.phase == DurablePending {
        Touch(i, m, None);
      } else {
        PushStale(op.session);
      }
    }

    // ----------------------------------------------------------------------
    // Many sessions.
    // ----------------------------------------------------------------------

    method HasSelected(bulk: Bulk) returns (any: bool)
      ensures any <==> AnySelected(mirror, bulk)
    {
      hide Selected;
      var i := 0;
      while i < |mirror|
        invariant 0 <= i <= |mirror|
        invariant forall k :: 0 <= k < i ==> !Selected(mirror[k], bulk)
      {
        if Selected(mirror[i], bulk) {
          return true;
        }
        i := i + 1;
      }
      return false;
    }

    method CancelAt(i: nat, bulk: Bulk)
      requires Valid() && i < |mirror|
      modifies this
      ensures Valid() && drained == old(drained)
      ensures State() == CancelOne(old(State()), bulk, i)
    {
      hide TallyOf, Selected, CancelWith, CauseOf;
      var m := mirror[i];
      if Selected(m, bulk) {
        var at := if bulk.OlderThan? || bulk.AllLive? then m.depth else depth;
        SetMirror(i, CancelWith(m, CauseOf(bulk)));
        Push(Some(m.session), Match, Some(phase), Some(CancelledOutcome(CauseOf(bulk))), at);
      }
    }

    /** Cancels every selected session and pushes one observation each. */
    method CancelSelected(bulk: Bulk)
      requires Valid()
      modifies this
      ensures Valid() && drained == old(drained)
      ensures State() == CancelBulk(old(State()), bulk)
    {
      hide Valid, CancelOne;
      CancelFromIs(State(), bulk);
      var i := 0;
      while i < |mirror|
        invariant 0 <= i <= |mirror|
        invariant Valid() && drained == old(drained)
        invariant CancelFrom(State(), bulk, i) == CancelFrom(old(State()), bulk, 0)
      {
        CancelOneLength(State(), bulk, i);
        CancelAt(i, bulk);
        i := i + 1;
      }
    }

    method HasActive() returns (any: bool)
      ensures any <==> ActiveTrail(State(), mirror) != []
    {
      var i := 0;
      assert mirror[0..] == mirror;
      while i < |mirror|
        invariant 0 <= i <= |mirror|
        invariant ActiveTrail(State(), mirror[i..]) == ActiveTrail(State(), mirror)
      {
        assert mirror[i..][0] == mirror[i] && mirror[i..][1..] == mirror[i + 1..];
        if mirror[i].phase == Active {
          return true;
        }
        i := i + 1;
      }
      return false;
    }

    method DeriveFetchPack()
      requires Valid()
      modifies this
      ensures Valid() && drained == old(drained)
      ensures State() == FetchPack(old(State()))
    {
      hide TallyOf;
      var any := HasActive();
      if !any {
        Push(None, Match, Some(phase), None, depth);
        return;
      }
      ReportFromIs(State(), 0);
      assert mirror[0..] == mirror;
      var i := 0;
      while i < |mirror|
        invariant 0 <= i <= |mirror|
        invariant Valid() && drained == old(drained)
        invariant ReportFrom(State(), i) == ReportFrom(old(State()), 0)
      {
        ReportAt(i);
        i := i + 1;
      }
    }

    method ReportAt(i: nat)
      requires Valid() && i < |mirror|
      modifies this
      ensures Valid() && drained == old(drained)
      ensures State() == ReportOne(old(State()), i)
    {
      hide TallyOf;
      var m := mirror[i];
      if m.phase == Active {
        Push(Some(m.session), Match, Some(phase), None, m.depth);
      }
    }

    method DeriveLclInstalled(lcl: LedgerIdentity)
      requires Valid()
      modifies this
      ensures Valid() && drained == old(drained)
      ensures State() == Installed(old(State()), lcl)
    {
      hide Valid, CancelBulk, Facted;
      if latest.Some? && latest.value.hash == lcl.hash {
        ForgetLatest();
      }
      if (phase.Syncing? && phase.target.hash == lcl.hash) || phase.Connected? {
        Conclude(None, Some(TargetInstalledAsLcl(lcl)), depth);
      } else if phase.Tracking? {
        if lcl.sequence > phase.lcl.sequence {
          SetPhase(Tracking(lcl));
        }
        Push(None, Match, Some(phase), None, depth);
      } else if phase.Full? {
        if lcl.sequence > phase.lcl.sequence {
          SetPhase(Full(lcl, phase.published));
        }
        Push(None, Match, Some(phase), None, depth);
      } else {
        Push(None, DerivedRejected, Some(phase), None, depth);
      }
      CancelSelected(Superseding(lcl.hash));
    }

    method ForgetLatest()
      requires Valid()
      modifies this`latest
      ensures Valid() && State() == old(State()).(latest := None)
    {
      latest := None;
    }

    method SetPhase(next: SyncPhase)
      requires Valid()
      modifies this`phase
      ensures Valid() && State() == old(State()).(phase := next)
    {
      phase := next;
    }

    method DerivePublication(lcl: LedgerIdentity, isFresh: bool)
      requires Valid()
      modifies this
      ensures Valid() && drained == old(drained)
      ensures State() == Published(old(State()), lcl, isFresh)
    {
      hide Valid, Facted;
      if phase.Tracking? && isFresh {
        Conclude(None, Some(ChainContiguous(phase.lcl, lcl)), depth);
      } else if phase.Full? && lcl.sequence > phase.published.sequence {
        SetPhase(Full(phase.lcl, lcl));
        Push(None, Match, Some(phase), None, depth);
      } else {
        Push(None, DerivedRejected, Some(phase), None, depth);
      }
    }

    method DeriveStoreRotation(next: nat)
      requires Valid()
      modifies this
      ensures Valid() && drained == old(drained)
      ensures State() == Rotated(old(State()), next)
    {
      hide TallyOf, AnySelected, CancelBulk;
      generation := next;
      var any := HasSelected(OlderThan(next));
      if any {
        CancelSelected(OlderThan(next));
      } else {
        Push(None, Match, Some(phase), None, depth);
      }
    }

    method DeriveShutdown()
      requires Valid()
      modifies this
      ensures Valid() && drained == old(drained)
      ensures State() == ShutDown(old(State()))
    {
      hide TallyOf, AnySelected, Transition, CancelBulk;
      var kind := ApplyFact(Some(Fact.Shutdown));
      var any := HasSelected(AllLive);
      if any {
        CancelSelected(AllLive);
      } else {
        Push(None, kind, Some(phase), None, depth);
      }
    }

    // ----------------------------------------------------------------------
    // The public operations.
    // ----------------------------------------------------------------------

    method DerivePlain(e: Event)
      requires Valid() && IsPlain(e)
      modifies this
      ensures Valid() && drained == old(drained)
      ensures State() == Plain(old(State()), e)
    {
      hide TallyOf, Facted, Published;
      match e {
        case StartupMode(next) =>
          phase := next;
          Push(None, Match, Some(next), None, depth);
        case Connectivity(available) =>
          var fact := None;
          if available && phase == Disconnected {
            fact := Some(PeerCapabilityAvailable);
          } else if !available && phase != Disconnected {
            fact := Some(PeerCapabilityLost);
          }
          usable := available;
          Conclude(None, fact, depth);
        case TransportConnectivity(available) =>
          usable := available;
          Conclude(None, None, depth);
        case QuorumLost => Conclude(None, Some(ConsensusQuorumLost), depth);
        case QuorumAvailable => Conclude(None, Some(ConsensusQuorumAvailable), depth);
        case ViewChange => Conclude(None, Some(ConsensusViewChange), depth);
        case LclDivergence(target) => Conclude(None, Some(PreferredLclDivergence(target)), depth);
        case LclReconciled(lcl) =>
          latest := None;
          Conclude(None, Some(PreferredLclReconciled(lcl)), depth);
        case Blocked => Conclude(None, Some(BlockedWithNoTarget), depth);
        case PublicationCommitted(lcl, isFresh) => DerivePublication(lcl, isFresh);
        case Heartbeat => Push(None, Match, Some(phase), None, depth);
        case PlanSliceReady =>
      }
    }

    method DeriveOfSession(e: Event)
      requires Valid() && IsOfSession(e)
      modifies this
      ensures Valid() && drained == old(drained)
      ensures State() == OfSession(old(State()), e)
    {
      hide Valid, State, Packet, ReadDone, WriteDone, FenceDone, Acknowledged, HandoffRefused, TimerDone;
      match e {
        case PacketAdmitted(session) => DerivePacket(session);
        case ReadCompleted(session, kind, read) => DeriveRead(session, kind, read);
        case WriteCompleted(session, written) => DeriveWrite(session, written);
        case DurabilityFenced(session, fenced) => DeriveDurability(session, fenced);
        case HandoffAcknowledged(session) => DeriveAck(session);
        case HandoffRejected(session) => DeriveHandoffRejected(session);
        case TimerFired(op, expiry) => DeriveTimer(op, expiry);
      }
    }

    method DeriveConsensus(target: LedgerTarget, reason: AcquireReason)
      requires Valid() && config.maxSessions >= 1
      modifies this
      ensures Valid() && drained == old(drained)
      ensures State() == Acquire(old(State()).(latest := Some(target)), target, reason, true, false)
    {
      hide TallyOf, Acquire;
      latest := Some(target);
      DeriveAcquire(target, reason, true, false);
    }

    method Derive(e: Event)
      requires Valid() && config.maxSessions >= 1
      modifies this
      ensures Valid() && drained == old(drained)
      ensures State() == Derived(old(State()), e)
    {
      hide Valid, State, Plain, OfSession, Acquire, RecoveryTarget, Installed, Rotated, FetchPack, CancelBulk, ShutDown;
      if IsPlain(e) {
        DerivePlain(e);
      } else if IsOfSession(e) {
        DeriveOfSession(e);
      } else {
        match e {
          case AcquireRequested(target, reason) => DeriveAcquire(target, reason, false, false);
          case ValidationTarget(target) => DeriveAcquire(target, Consensus, false, true);
          case ValidationRecoveryTarget(target) => DeriveValidationRecoveryTarget(target);
          case ConsensusTarget(target, reason) => DeriveConsensus(target, reason);
          case LclInstalled(lcl) => DeriveLclInstalled(lcl);
          case StoreRotated(next) => DeriveStoreRotation(next);
          case FetchPackAvailable => DeriveFetchPack();
          case RegistrySweep => CancelSelected(Expired);
          case ShutdownRequested => DeriveShutdown();
        }
      }
    }

    /** Takes over the identity of a production session that started for a tracked hash. */
    method AdoptProductionSession(production: SessionRef)
      requires Valid()
      modifies this
      ensures Valid() && drained == old(drained)
      ensures State() == Adopted(old(State()), production)
      ensures old(Sound()) ==> Sound()
    {
      hide TallyOf, Find, LastLive, Inserted, Consistent;
      if Sound() {
        AdoptionConsistent(State(), production);
      }
      if !config.enabled {
        return;
      }
      var known := Locate(production);
      if known < |mirror| {
        return;
      }
      var i := FindLastLive(production.targetHash);
      if i == |mirror| {
        return;
      }
      var m := mirror[i].(session := production);
      mirror := mirror[..i] + mirror[i + 1..];
      InsertMirror(m);
    }

    /** The last live session for a hash, in session order. */
    method FindLastLive(hash: Hash) returns (i: nat)
      ensures i == LastLive(mirror, hash)
    {
      var k := |mirror|;
      assert mirror[..k] == mirror;
      while k > 0
        invariant 0 <= k <= |mirror|
        invariant LastLive(mirror, hash) == if LastLive(mirror[..k], hash) < k then LastLive(mirror[..k], hash) else |mirror|
      {
        var m := mirror[k - 1];
        assert mirror[..k][k - 1] == m && mirror[..k][..k - 1] == mirror[..k - 1];
        if !m.phase.IsTerminal() && m.target.hash == hash {
          return k - 1;
        }
        k := k - 1;
      }
      return |mirror|;
    }

    /** Remembers the expiry timer production armed last. */
    method ObserveExpiryTimer(op: OperationRef)
      requires Valid()
      modifies this
      ensures Valid() && drained == old(drained)
      ensures State() == Armed(old(State()), op)
      ensures old(Sound()) ==> Sound()
    {
      hide TallyOf, Find, Consistent;
      if Sound() {
        ArmingConsistent(State(), op);
      }
      if !config.enabled {
        return;
      }
      var i := Locate(op.session);
      if i < |mirror| && (mirror[i].phase == Active || mirror[i].phase == Dormant) {
        SetMirror(i, mirror[i].(expiryTimer := Some(op), sweepEligible := false));
      }
    }

    method CompareReference(reference: Reference)
      requires Valid()
      modifies this
      ensures Valid() && drained == old(drained)
      ensures State() == Compared(old(State()), reference)
      ensures old(Sound()) ==> Sound()
    {
      hide TallyOf, Find, Consistent;
      if Sound() {
        ComparingConsistent(State(), reference);
      }
      if !config.enabled {
        return;
      }
      var i := Locate(reference.session);
      if i == |mirror| {
        Push(Some(reference.session), SessionPresenceMismatch, Some(phase), None, reference.depth);
        return;
      }
      var m, kind := mirror[i], Match;
      if reference.targetHash.Some? && reference.targetHash.value != m.session.targetHash {
        kind := TargetMismatch;
      } else if m.outcome != reference.outcome && (m.outcome.Some? || reference.outcome.Some?) {
        kind := OutcomeMismatch;
      } else if reference.phase.Some? && reference.phase.value != phase {
        kind := PhaseMismatch;
      }
      Push(Some(reference.session), kind, Some(phase), m.outcome, reference.depth);
    }

    /**
      One event: derive it, then settle the recovery owner and the anchor.
      Afterwards a stored recovery owner is a tracked live session.
    */
    method Record(e: Event)
      requires Valid() && (config.enabled ==> config.maxSessions >= 1)
      modifies this
      ensures Valid() && drained == old(drained)
      ensures State() == Recorded(old(State()), e)
      ensures old(Sound()) ==> Sound() && (config.enabled ==> ShadowRuns.OwnerOk(State()))
    {
      hide Valid, Derived, Reconcile, Promote, Consistent, ShadowRuns.OwnerOk;
      if Sound() {
        RecordConsistent(State(), e);
      }
      if !config.enabled {
        return;
      }
      RecordEnabled(e);
    }

    method RecordEnabled(e: Event)
      requires Valid() && config.maxSessions >= 1
      modifies this
      ensures Valid() && drained == old(drained)
      ensures State() == Promote(Reconcile(Derived(old(State()), e)))
    {
      hide Valid, State, Derived, Reconcile, Promote;
      Derive(e);
      ReconcileValidationRecoveryOwner();
      PromoteLatestViableSyncingAnchor();
    }
  }
}

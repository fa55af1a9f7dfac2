/**
  The life of one mirrored session: its entries from the step that started it
  on, through every event, timer and adoption. Every tracked session has one,
  and what a session is now it became along it.
*/
module ShadowLives {
  import opened Basics
  import opened Identity
  import opened Sessions
  import opened ShadowSpec
  import opened ShadowRuns
  import opened ShadowPhases

  // ------------------------------------------------------------------------
  // Lives.
  // ------------------------------------------------------------------------

  /** One step of a life: an adoption at most renames the session, every other input lets it evolve. */
  ghost predicate Passes(input: Input, m: Mirror, n: Mirror) {
    if input.Adopt? then n == m || n == m.(session := input.session) else Evolves(input, m, n)
  }

  /** The session is new at the start, and each entry passes into the next by the input at its place. */
  ghost predicate Chain(inputs: seq<Input>, from: nat, life: seq<Mirror>) {
    && life != [] && from + |life| == |inputs| + 1
    && life[0].phase == Active && life[0].expiryTimer.None? && !life[0].sweepEligible
    && forall t :: 0 <= t < |life| - 1 ==> Passes(inputs[from + t], life[t], life[t + 1])
  }

  /** The input before `from` started a session under this key. */
  ghost predicate StartedAt(s0: Shadow, inputs: seq<Input>, from: nat, key: SessionRef) {
    1 <= from <= |inputs| && StartsKey(Run(s0, inputs[..from - 1]), inputs[from - 1], key)
  }

  /** Such a chain of entries that the run really tracked, one after each input since the one that started the session. */
  ghost predicate IsLife(s0: Shadow, inputs: seq<Input>, from: nat, life: seq<Mirror>) {
    && Chain(inputs, from, life)
    && StartedAt(s0, inputs, from, life[0].session)
    && forall t :: 0 <= t < |life| ==> life[t] in Run(s0, inputs[..from + t]).mirror
  }

  /** A life that leads to this entry. */
  ghost predicate LifeOf(s0: Shadow, inputs: seq<Input>, n: Mirror, from: nat, life: seq<Mirror>) {
    IsLife(s0, inputs, from, life) && life[|life| - 1] == n
  }

  lemma BornLives(s0: Shadow, inputs: seq<Input>, n: Mirror)
    requires inputs != [] && n in Run(s0, inputs).mirror && Newborn(n)
    requires StartsKey(Run(s0, inputs[..|inputs| - 1]), inputs[|inputs| - 1], n.session)
    ensures LifeOf(s0, inputs, n, |inputs|, [n])
  {
    hide Run, StartsKey;
    assert inputs[..|inputs|] == inputs;
  }

  lemma ChainOn(inputs: seq<Input>, from: nat, life: seq<Mirror>, n: Mirror)
    requires inputs != [] && Chain(inputs[..|inputs| - 1], from, life) && Passes(inputs[|inputs| - 1], life[|life| - 1], n)
    ensures Chain(inputs, from, life + [n])
  {
    hide Passes;
    var init, longer := inputs[..|inputs| - 1], life + [n];
    forall t | 0 <= t < |longer| - 1
      ensures Passes(inputs[from + t], longer[t], longer[t + 1])
    {
      if t < |life| - 1 {
        assert Passes(init[from + t], life[t], life[t + 1]);
      }
    }
  }

  lemma LivesOn(s0: Shadow, inputs: seq<Input>, m: Mirror, from: nat, life: seq<Mirror>, n: Mirror)
    requires inputs != [] && LifeOf(s0, inputs[..|inputs| - 1], m, from, life)
    requires n in Run(s0, inputs).mirror && Passes(inputs[|inputs| - 1], m, n)
    ensures LifeOf(s0, inputs, n, from, life + [n])
  {
    hide Run, Passes, StartsKey;
    var init, longer := inputs[..|inputs| - 1], life + [n];
    ChainOn(inputs, from, life, n);
    assert init[..from - 1] == inputs[..from - 1];
    forall t | 0 <= t < |longer|
      ensures longer[t] in Run(s0, inputs[..from + t]).mirror
    {
      if t < |life| {
        assert init[..from + t] == inputs[..from + t];
      } else {
        assert inputs[..from + t] == inputs;
      }
    }
  }

  /** A tracked session was started by the step, or passed into from one tracked before. */
  lemma StepPasses(s: Shadow, input: Input, n: Mirror)
    requires Usable(s.config) && MirrorOk(s) && n in Step(s, input).mirror
    ensures (StartsKey(s, input, n.session) && Newborn(n)) || exists m :: m in s.mirror && Passes(input, m, n)
  {
    hide MirrorOk, Newborn, Recorded, Armed, Compared, Adopted, Starts, Evolves, Find, Revokes, OwnerOk, Descends, LegalPhase;
    if input.Adopt? {
      AdoptedEntries(s, input.session);
    } else if input.Observe? && s.config.enabled {
      RecordEntries(s, input.event);
    } else if input.Observe? {
      Disabled(s, input.event);
      EvolvesRefl(input, n);
    } else {
      QuietSteps(s, input);
      NoBirth(input, s, Step(s, input).mirror, n);
    }
  }

  /** In every run every tracked session has a life that leads to it. */
  lemma {:induction false} EveryoneLives(config: Config, runEpoch: nat, inputs: seq<Input>, n: Mirror)
    requires Usable(config) && n in Run(NewShadow(config, runEpoch), inputs).mirror
    ensures exists from, life :: LifeOf(NewShadow(config, runEpoch), inputs, n, from, life)
  {
    hide Step, LifeOf, Passes, StartsKey, Newborn;
    if inputs != [] {
      var s0, init, input := NewShadow(config, runEpoch), inputs[..|inputs| - 1], inputs[|inputs| - 1];
      var s := Run(s0, init);
      RunsKeepMirror(config, runEpoch, init);
      hide MirrorOk, RecoveryOk;
      StepPasses(s, input, n);
      if StartsKey(s, input, n.session) && Newborn(n) {
        BornLives(s0, inputs, n);
      } else {
        var m :| m in s.mirror && Passes(input, m, n);
        EveryoneLives(config, runEpoch, init, m);
        var from, life :| LifeOf(s0, init, m, from, life);
        LivesOn(s0, inputs, m, from, life, n);
      }
    }
  }

  /** A life up to its last step. */
  lemma ChainInit(inputs: seq<Input>, from: nat, life: seq<Mirror>)
    requires Chain(inputs, from, life) && |life| > 1
    ensures inputs != [] && Chain(inputs[..|inputs| - 1], from, life[..|life| - 1])
    ensures Passes(inputs[|inputs| - 1], life[|life| - 2], life[|life| - 1])
  {
    hide Passes;
    var init, shorter := inputs[..|inputs| - 1], life[..|life| - 1];
    forall t | 0 <= t < |shorter| - 1
      ensures Passes(init[from + t], shorter[t], shorter[t + 1])
    {
      assert Passes(inputs[from + t], life[t], life[t + 1]);
    }
    assert Passes(inputs[from + (|life| - 2)], life[|life| - 2], life[|life| - 1]);
  }

  // ------------------------------------------------------------------------
  // Durable only after the whole protocol.
  // ------------------------------------------------------------------------

  /** Step `t` of the life came by this input and took the session from one phase to the other. */
  ghost predicate Took(inputs: seq<Input>, from: nat, life: seq<Mirror>, t: nat, input: Input, p: SessionPhase, q: SessionPhase) {
    t + 1 < |life| && from + t < |inputs| && inputs[from + t] == input && life[t].phase == p && life[t + 1].phase == q
  }

  /** The session's write was accepted at `i`. */
  ghost predicate Accepted(inputs: seq<Input>, from: nat, life: seq<Mirror>, i: nat) {
    i < |life| && Took(inputs, from, life, i, Observe(WriteCompleted(life[i].session, WriteAccepted)), Active, Persisting)
  }

  /** And its fence passed at `j`. */
  ghost predicate Fenced(inputs: seq<Input>, from: nat, life: seq<Mirror>, i: nat, j: nat) {
    && Accepted(inputs, from, life, i) && i < j < |life|
    && Took(inputs, from, life, j, Observe(DurabilityFenced(life[j].session, FencePassed)), Persisting, DurablePending)
  }

  /** And its handoff was acknowledged at `k`. */
  ghost predicate HandedOff(inputs: seq<Input>, from: nat, life: seq<Mirror>, i: nat, j: nat, k: nat) {
    && Fenced(inputs, from, life, i, j) && j < k < |life|
    && Took(inputs, from, life, k, Observe(HandoffAcknowledged(life[k].session)), DurablePending, Complete)
  }

  /** The last phase is backed by the steps it takes to get there. */
  ghost predicate Backed(inputs: seq<Input>, from: nat, life: seq<Mirror>)
    requires life != []
  {
    match life[|life| - 1].phase
    case Persisting => exists i :: Accepted(inputs, from, life, i)
    case DurablePending => exists i, j :: Fenced(inputs, from, life, i, j)
    case Complete => exists i, j, k :: HandedOff(inputs, from, life, i, j, k)
    case _ => true
  }

  /** Steps of a life stay steps of the longer one. */
  lemma StillFenced(inputs: seq<Input>, from: nat, life: seq<Mirror>, i: nat, j: nat, k: nat)
    requires |life| > 1 && inputs != []
    ensures var init, shorter := inputs[..|inputs| - 1], life[..|life| - 1];
            && (Accepted(init, from, shorter, i) ==> Accepted(inputs, from, life, i) && i + 1 < |shorter|)
            && (Fenced(init, from, shorter, i, j) ==> Fenced(inputs, from, life, i, j) && j + 1 < |shorter|)
            && (HandedOff(init, from, shorter, i, j, k) ==> HandedOff(inputs, from, life, i, j, k))
  {
  }

  lemma BackedLonger(inputs: seq<Input>, from: nat, life: seq<Mirror>)
    requires |life| > 1 && inputs != [] && Backed(inputs[..|inputs| - 1], from, life[..|life| - 1])
    requires life[|life| - 1].phase == life[|life| - 2].phase
    ensures Backed(inputs, from, life)
  {
    hide Accepted, Fenced, HandedOff;
    var init, shorter := inputs[..|inputs| - 1], life[..|life| - 1];
    match life[|life| - 1].phase
    case Persisting =>
      var i :| Accepted(init, from, shorter, i);
      StillFenced(inputs, from, life, i, 0, 0);
    case DurablePending =>
      var i, j :| Fenced(init, from, shorter, i, j);
      StillFenced(inputs, from, life, i, j, 0);
    case Complete =>
      var i, j, k :| HandedOff(init, from, shorter, i, j, k);
      StillFenced(inputs, from, life, i, j, k);
    case _ =>
  }

  lemma BackedMove(inputs: seq<Input>, from: nat, life: seq<Mirror>)
    requires Chain(inputs, from, life) && |life| > 1 && Backed(inputs[..|inputs| - 1], from, life[..|life| - 1])
    requires life[|life| - 1].phase != life[|life| - 2].phase
    requires Evolves(inputs[|inputs| - 1], life[|life| - 2], life[|life| - 1])
    ensures Backed(inputs, from, life)
  {
    hide TimerStep, ExpiryStep, Passes;
    var init, shorter, t := inputs[..|inputs| - 1], life[..|life| - 1], |life| - 2;
    assert from + t == |inputs| - 1 && shorter[t] == life[t];
    if life[t + 1].phase == Persisting {
      assert Accepted(inputs, from, life, t);
    } else if life[t + 1].phase == DurablePending {
      var i :| Accepted(init, from, shorter, i);
      StillFenced(inputs, from, life, i, 0, 0);
      assert Fenced(inputs, from, life, i, t);
    } else if life[t + 1].phase == Complete {
      var i, j :| Fenced(init, from, shorter, i, j);
      StillFenced(inputs, from, life, i, j, 0);
      assert HandedOff(inputs, from, life, i, j, t);
    }
  }

  lemma {:induction false} LifeBacked(inputs: seq<Input>, from: nat, life: seq<Mirror>)
    requires Chain(inputs, from, life)
    ensures Backed(inputs, from, life)
    decreases |life|
  {
    if |life| > 1 {
      ChainInit(inputs, from, life);
      LifeBacked(inputs[..|inputs| - 1], from, life[..|life| - 1]);
      if life[|life| - 1].phase == life[|life| - 2].phase {
        hide Chain, Backed;
        BackedLonger(inputs, from, life);
      } else {
        hide Chain, Backed, Evolves;
        BackedMove(inputs, from, life);
      }
    }
  }

  /**
    In every run, with any adoptions, a session that is complete, and so
    carries the durable outcome, was in its life taken from Active to
    Persisting by an accepted write, from there to DurablePending by a passed
    fence and from there to Complete by an acknowledged handoff, in this
    order, each under the name it had then. Persisting and DurablePending are
    backed in the same way.
  */
  lemma DurableInOrder(config: Config, runEpoch: nat, inputs: seq<Input>, n: Mirror)
    requires Usable(config) && n in Run(NewShadow(config, runEpoch), inputs).mirror
    ensures exists from, life ::
              LifeOf(NewShadow(config, runEpoch), inputs, n, from, life) && Backed(inputs, from, life)
    ensures n.outcome == OutcomeOf(n.phase)
  {
    hide Run, Passes, StartedAt, Accepted, Fenced, HandedOff;
    RunsKeepMirror(config, runEpoch, inputs);
    EntriesOk(Run(NewShadow(config, runEpoch), inputs));
    EveryoneLives(config, runEpoch, inputs, n);
    var from, life :| LifeOf(NewShadow(config, runEpoch), inputs, n, from, life);
    LifeBacked(inputs, from, life);
  }

  // ------------------------------------------------------------------------
  // Idle expiry.
  // ------------------------------------------------------------------------

  /** Step `i` armed the timer under the name the session had, and the session then waited for it. */
  ghost predicate ArmedAt(inputs: seq<Input>, from: nat, life: seq<Mirror>, op: OperationRef, i: nat) {
    && i + 1 < |life| && from + i < |inputs|
    && inputs[from + i] == ArmExpiry(op) && op.session == life[i].session && life[i + 1].expiryTimer == Some(op)
  }

  /** The very timer armed at `i` fired at `j`, while the session waited for it, and made it eligible. */
  ghost predicate FiredAt(inputs: seq<Input>, from: nat, life: seq<Mirror>, op: OperationRef, i: nat, j: nat) {
    && ArmedAt(inputs, from, life, op, i) && i < j && j + 1 < |life| && from + j < |inputs|
    && inputs[from + j] == Observe(TimerFired(op, true)) && life[j].expiryTimer == Some(op) && life[j + 1].sweepEligible
  }

  /** And the sweep at `k` found the session eligible and not scanning, and expired it. */
  ghost predicate SweptAt(inputs: seq<Input>, from: nat, life: seq<Mirror>, op: OperationRef, i: nat, j: nat, k: nat) {
    && FiredAt(inputs, from, life, op, i, j) && j < k && k + 1 < |life| && from + k < |inputs|
    && inputs[from + k] == Observe(RegistrySweep) && life[k].sweepEligible && !life[k].scanning
    && life[k].phase != Cancelled(IdleExpired) && life[k + 1].phase == Cancelled(IdleExpired)
  }

  ghost predicate TimerBacked(inputs: seq<Input>, from: nat, life: seq<Mirror>, m: Mirror) {
    && (m.expiryTimer.Some? ==> exists i :: ArmedAt(inputs, from, life, m.expiryTimer.value, i))
    && (m.sweepEligible ==> exists op, i, j :: FiredAt(inputs, from, life, op, i, j))
    && (m.phase == Cancelled(IdleExpired) ==> exists op, i, j, k :: SweptAt(inputs, from, life, op, i, j, k))
  }

  lemma StillSwept(inputs: seq<Input>, from: nat, life: seq<Mirror>, op: OperationRef, i: nat, j: nat, k: nat)
    requires |life| > 1 && inputs != []
    ensures var init, shorter := inputs[..|inputs| - 1], life[..|life| - 1];
            && (ArmedAt(init, from, shorter, op, i) ==> ArmedAt(inputs, from, life, op, i) && i + 1 < |shorter|)
            && (FiredAt(init, from, shorter, op, i, j) ==> FiredAt(inputs, from, life, op, i, j) && j + 1 < |shorter|)
            && (SweptAt(init, from, shorter, op, i, j, k) ==> SweptAt(inputs, from, life, op, i, j, k))
  {
  }

  /** A backing history stays one when the life goes on. */
  lemma TimerBackedLonger(inputs: seq<Input>, from: nat, life: seq<Mirror>, m: Mirror)
    requires |life| > 1 && inputs != [] && TimerBacked(inputs[..|inputs| - 1], from, life[..|life| - 1], m)
    ensures TimerBacked(inputs, from, life, m)
  {
    hide ArmedAt, FiredAt, SweptAt;
    var init, shorter := inputs[..|inputs| - 1], life[..|life| - 1];
    if m.expiryTimer.Some? {
      var i :| ArmedAt(init, from, shorter, m.expiryTimer.value, i);
      StillSwept(inputs, from, life, m.expiryTimer.value, i, 0, 0);
    }
    if m.sweepEligible {
      var op, i, j :| FiredAt(init, from, shorter, op, i, j);
      StillSwept(inputs, from, life, op, i, j, 0);
    }
    if m.phase == Cancelled(IdleExpired) {
      var op, i, j, k :| SweptAt(init, from, shorter, op, i, j, k);
      StillSwept(inputs, from, life, op, i, j, k);
    }
  }

  /** The timer the last step armed or fired. */
  lemma TimerMoved(inputs: seq<Input>, from: nat, life: seq<Mirror>)
    requires |life| > 1 && from + |life| == |inputs| + 1
    requires TimerBacked(inputs[..|inputs| - 1], from, life[..|life| - 1], life[|life| - 2])
    requires TimerStep(inputs[|inputs| - 1], life[|life| - 2], life[|life| - 1]) && !SameTimer(life[|life| - 2], life[|life| - 1])
    ensures var n := life[|life| - 1];
            && (n.expiryTimer.Some? ==> exists i :: ArmedAt(inputs, from, life, n.expiryTimer.value, i))
            && (n.sweepEligible ==> exists op, i, j :: FiredAt(inputs, from, life, op, i, j))
  {
    var init, shorter, t := inputs[..|inputs| - 1], life[..|life| - 1], |life| - 2;
    var input := inputs[|inputs| - 1];
    assert inputs[from + t] == input;
    if input.ArmExpiry? {
      assert ArmedAt(inputs, from, life, input.op, t);
    } else {
      var op := life[t].expiryTimer.value;
      var i :| ArmedAt(init, from, shorter, op, i);
      StillSwept(inputs, from, life, op, i, 0, 0);
      assert FiredAt(inputs, from, life, op, i, t);
    }
  }

  /** The sweep of the last step. */
  lemma SweptNow(inputs: seq<Input>, from: nat, life: seq<Mirror>)
    requires |life| > 1 && from + |life| == |inputs| + 1
    requires TimerBacked(inputs[..|inputs| - 1], from, life[..|life| - 1], life[|life| - 2])
    requires ExpiryStep(inputs[|inputs| - 1], life[|life| - 2], life[|life| - 1])
    requires life[|life| - 1].phase == Cancelled(IdleExpired) && life[|life| - 1].phase != life[|life| - 2].phase
    ensures exists op, i, j, k :: SweptAt(inputs, from, life, op, i, j, k)
  {
    hide ArmedAt;
    var init, shorter, t := inputs[..|inputs| - 1], life[..|life| - 1], |life| - 2;
    assert inputs[from + t] == inputs[|inputs| - 1];
    var op, i, j :| FiredAt(init, from, shorter, op, i, j);
    StillSwept(inputs, from, life, op, i, j, 0);
    assert SweptAt(inputs, from, life, op, i, j, t);
  }

  lemma TimerBackedStep(inputs: seq<Input>, from: nat, life: seq<Mirror>)
    requires |life| > 1 && from + |life| == |inputs| + 1
    requires TimerBacked(inputs[..|inputs| - 1], from, life[..|life| - 1], life[|life| - 2])
    requires Passes(inputs[|inputs| - 1], life[|life| - 2], life[|life| - 1])
    ensures TimerBacked(inputs, from, life, life[|life| - 1])
  {
    hide ArmedAt, FiredAt, SweptAt, PhaseStep, TimerStep, ExpiryStep;
    var m, n := life[|life| - 2], life[|life| - 1];
    TimerBackedLonger(inputs, from, life, m);
    if !SameTimer(m, n) {
      TimerMoved(inputs, from, life);
    }
    if n.phase == Cancelled(IdleExpired) && n.phase != m.phase {
      SweptNow(inputs, from, life);
    }
  }

  lemma {:induction false} LifeTimerBacked(inputs: seq<Input>, from: nat, life: seq<Mirror>)
    requires Chain(inputs, from, life)
    ensures TimerBacked(inputs, from, life, life[|life| - 1])
    decreases |life|
  {
    if |life| > 1 {
      ChainInit(inputs, from, life);
      LifeTimerBacked(inputs[..|inputs| - 1], from, life[..|life| - 1]);
      hide TimerBacked, Passes;
      TimerBackedStep(inputs, from, life);
    }
  }

  /**
    In every run, with any adoptions, a session expires idle only after, in
    its life, an expiry timer was armed for it under the name it had then,
    that very timer fired while the session waited for it, and a registry
    sweep found the session eligible and not scanning, in this order.
  */
  lemma ExpiresOnlyAfterItsTimer(config: Config, runEpoch: nat, inputs: seq<Input>, n: Mirror)
    requires Usable(config) && n in Run(NewShadow(config, runEpoch), inputs).mirror
    ensures exists from, life ::
              LifeOf(NewShadow(config, runEpoch), inputs, n, from, life) && TimerBacked(inputs, from, life, n)
  {
    hide Run, Passes, StartedAt, TimerBacked;
    EveryoneLives(config, runEpoch, inputs, n);
    var from, life :| LifeOf(NewShadow(config, runEpoch), inputs, n, from, life);
    LifeTimerBacked(inputs, from, life);
  }
}

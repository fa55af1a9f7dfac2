/**
  The service lifecycle: which facts move it, and what a whole history of
  facts can and cannot do to it.
*/
module SyncPhases {
  import opened Basics
  import opened Identity

  datatype LedgerTarget = LedgerTarget(hash: Hash, sequence: Option<nat>)

  datatype LedgerIdentity = LedgerIdentity(hash: Hash, sequence: nat)

  datatype SyncPhase =
    | Disconnected
    | Connected
    | Syncing(target: LedgerTarget)
    | Tracking(lcl: LedgerIdentity)
    | Full(lcl: LedgerIdentity, published: LedgerIdentity)
    | Stopping

  datatype Fact =
    | PeerCapabilityAvailable
    | PeerCapabilityLost
    | ConsensusQuorumLost
    | ConsensusQuorumAvailable
    | TargetRequired(target: LedgerTarget)
    | TargetInstalledAsLcl(lcl: LedgerIdentity)
    | ChainContiguous(lcl: LedgerIdentity, published: LedgerIdentity)
    | ConsensusViewChange
    | PreferredLclDivergence(target: LedgerTarget)
    | PreferredLclReconciled(lcl: LedgerIdentity)
    | BlockedWithNoTarget
    | Shutdown

  /** A same-hash fact may add a sequence the anchor did not know; nothing else moves it. */
  function Refined(current: LedgerTarget, target: LedgerTarget): LedgerTarget {
    if current.hash == target.hash && current.sequence.None? && target.sequence.Some? then target else current
  }

  /** The transition table; `None` rejects the fact. */
  function Transition(from: SyncPhase, fact: Fact): Option<SyncPhase> {
    match (from, fact)
    case (Stopping, _) => None
    case (_, Shutdown) => Some(Stopping)
    case (Disconnected, PeerCapabilityAvailable) => Some(Connected)
    case (Disconnected, ConsensusQuorumAvailable) => Some(Connected)
    case (Disconnected, _) => None
    case (_, ConsensusQuorumLost) => Some(Disconnected)
    case (_, PeerCapabilityLost) => Some(Disconnected)
    case (Connected, TargetRequired(target)) => Some(Syncing(target))
    case (Connected, PreferredLclDivergence(target)) => Some(Syncing(target))
    case (Connected, TargetInstalledAsLcl(lcl)) => Some(Tracking(lcl))
    case (Syncing(current), TargetRequired(target)) => Some(Syncing(Refined(current, target)))
    case (Syncing(current), PreferredLclDivergence(target)) => Some(Syncing(Refined(current, target)))
    case (Syncing(_), TargetInstalledAsLcl(lcl)) => Some(Tracking(lcl))
    case (Syncing(_), PreferredLclReconciled(lcl)) => Some(Tracking(lcl))
    case (Tracking(_), PreferredLclDivergence(target)) => Some(Syncing(target))
    case (Tracking(lcl), TargetRequired(_)) => Some(Tracking(lcl))
    case (Tracking(_), ConsensusViewChange) => Some(Connected)
    case (Tracking(_), ChainContiguous(lcl, published)) => Some(Full(lcl, published))
    case (Full(lcl, published), TargetRequired(_)) => Some(Full(lcl, published))
    case (Full(_, _), PreferredLclDivergence(target)) => Some(Syncing(target))
    case (Full(_, _), ConsensusViewChange) => Some(Connected)
    case (Full(_, _), BlockedWithNoTarget) => Some(Connected)
    case _ => None
  }

  /** A rejected fact leaves the phase alone. */
  function Applied(from: SyncPhase, fact: Fact): SyncPhase {
    var to := Transition(from, fact);
    if to.Some? then to.value else from
  }

  function After(from: SyncPhase, facts: seq<Fact>): SyncPhase {
    if facts == [] then from else Applied(After(from, facts[..|facts| - 1]), facts[|facts| - 1])
  }

  // ------------------------------------------------------------------------
  // The recovery anchor.
  // ------------------------------------------------------------------------

  /** The anchor kept its hash and at most learned its sequence. */
  predicate SameAnchor(a: LedgerTarget, b: LedgerTarget) {
    b.hash == a.hash && (a.sequence.Some? ==> b.sequence == a.sequence)
  }

  lemma AnchorStep(from: SyncPhase, fact: Fact)
    requires from.Syncing? && Applied(from, fact).Syncing?
    ensures SameAnchor(from.target, Applied(from, fact).target)
  {
  }

  ghost predicate StaysSyncing(from: SyncPhase, facts: seq<Fact>) {
    forall n :: 0 <= n <= |facts| ==> After(from, facts[..n]).Syncing?
  }

  /** As long as a history of facts stays in Syncing, its target does not move. */
  lemma {:induction false} AnchorIsStable(from: SyncPhase, facts: seq<Fact>)
    requires StaysSyncing(from, facts)
    ensures from.Syncing? && After(from, facts).Syncing? && SameAnchor(from.target, After(from, facts).target)
  {
    assert facts[..|facts|] == facts;
    assert After(from, facts[..0]).Syncing?;
    if facts != [] {
      var init := facts[..|facts| - 1];
      forall n | 0 <= n <= |init|
        ensures After(from, init[..n]).Syncing?
      {
        assert init[..n] == facts[..n];
      }
      AnchorIsStable(from, init);
      AnchorStep(After(from, init), facts[|facts| - 1]);
    }
  }

  // ------------------------------------------------------------------------
  // The way to Full.
  // ------------------------------------------------------------------------

  predicate Connects(fact: Fact) {
    fact.PeerCapabilityAvailable? || fact.ConsensusQuorumAvailable?
  }

  predicate Installs(fact: Fact) {
    fact.TargetInstalledAsLcl? || fact.PreferredLclReconciled?
  }

  predicate Disconnects(fact: Fact) {
    fact.PeerCapabilityLost? || fact.ConsensusQuorumLost? || fact.Shutdown?
  }

  predicate Diverges(fact: Fact) {
    fact.ConsensusViewChange? || fact.PreferredLclDivergence?
  }

  /** Connected at `i` and never cut off since. */
  ghost predicate ConnectedSince(facts: seq<Fact>, i: nat) {
    i < |facts| && Connects(facts[i]) && forall n :: i < n < |facts| ==> !Disconnects(facts[n])
  }

  /** An LCL was installed at `j` and neither the view nor the preferred ledger moved since. */
  ghost predicate InstalledSince(facts: seq<Fact>, i: nat, j: nat) {
    && ConnectedSince(facts, i)
    && i < j < |facts| && Installs(facts[j])
    && forall n :: j < n < |facts| ==> !Diverges(facts[n])
  }

  /** The chain was found contiguous at `k` and nothing blocked since. */
  ghost predicate ContiguousSince(facts: seq<Fact>, i: nat, j: nat, k: nat) {
    && InstalledSince(facts, i, j)
    && j < k < |facts| && facts[k].ChainContiguous?
    && forall n :: k < n < |facts| ==> !facts[n].BlockedWithNoTarget?
  }

  /** What the history must hold for the phase to be what it is. */
  ghost predicate Earned(facts: seq<Fact>, phase: SyncPhase) {
    match phase
    case Connected => exists i :: ConnectedSince(facts, i)
    case Syncing(_) => exists i :: ConnectedSince(facts, i)
    case Tracking(_) => exists i, j :: InstalledSince(facts, i, j)
    case Full(_, _) => exists i, j, k :: ContiguousSince(facts, i, j, k)
    case _ => true
  }

  lemma ConnectedLonger(facts: seq<Fact>, i: nat)
    requires facts != [] && ConnectedSince(facts[..|facts| - 1], i) && !Disconnects(facts[|facts| - 1])
    ensures ConnectedSince(facts, i)
  {
  }

  lemma StillConnected(facts: seq<Fact>, phase: SyncPhase)
    requires facts != [] && Earned(facts[..|facts| - 1], phase) && !Disconnects(facts[|facts| - 1])
    requires phase.Connected? || phase.Syncing? || phase.Tracking? || phase.Full?
    ensures exists i :: ConnectedSince(facts, i)
  {
    var init := facts[..|facts| - 1];
    var i: nat;
    if phase.Full? {
      var a, b, c :| ContiguousSince(init, a, b, c);
      i := a;
    } else if phase.Tracking? {
      var a, b :| InstalledSince(init, a, b);
      i := a;
    } else {
      i :| ConnectedSince(init, i);
    }
    ConnectedLonger(facts, i);
  }

  lemma EarnedStep(facts: seq<Fact>, phase: SyncPhase)
    requires facts != [] && Earned(facts[..|facts| - 1], phase)
    ensures Earned(facts, Applied(phase, facts[|facts| - 1]))
  {
    var init, fact := facts[..|facts| - 1], facts[|facts| - 1];
    var next := Applied(phase, fact);
    if phase.Disconnected? && next.Connected? {
      assert ConnectedSince(facts, |init|);
    } else if next.Connected? || next.Syncing? {
      StillConnected(facts, phase);
    } else if next.Tracking? && phase.Tracking? {
      var i, j :| InstalledSince(init, i, j);
      assert InstalledSince(facts, i, j);
    } else if next.Tracking? {
      StillConnected(facts, phase);
      var i :| ConnectedSince(facts, i);
      assert InstalledSince(facts, i, |init|);
    } else if next.Full? && phase.Full? {
      var i, j, k :| ContiguousSince(init, i, j, k);
      assert ContiguousSince(facts, i, j, k);
    } else if next.Full? {
      var i, j :| InstalledSince(init, i, j);
      assert InstalledSince(facts, i, j) && ContiguousSince(facts, i, j, |init|);
    }
  }

  /**
    From Disconnected the service is Full only after, in this order, peers or
    quorum became available, an LCL was installed or reconciled, and the chain
    became contiguous, with nothing in between that takes any of it back.
  */
  lemma {:induction false} FullIsEarned(facts: seq<Fact>)
    ensures Earned(facts, After(Disconnected, facts))
  {
    if facts != [] {
      FullIsEarned(facts[..|facts| - 1]);
      EarnedStep(facts, After(Disconnected, facts[..|facts| - 1]));
    }
  }

  /** Stopping is final. */
  lemma {:induction false} StoppingIsFinal(facts: seq<Fact>)
    ensures After(Stopping, facts) == Stopping
  {
    if facts != [] {
      StoppingIsFinal(facts[..|facts| - 1]);
    }
  }
}

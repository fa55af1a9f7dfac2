/**
  Session and operation identity, and the counter that mints fresh ids.
*/
module Identity {
  import opened Basics

  type Hash = nat
  type PeerId = nat

  datatype SessionRef = SessionRef(
    runEpoch: nat, sessionId: nat, targetHash: Hash, planEpoch: nat, storeGeneration: nat)

  datatype OperationKind =
    | TreeTurn | CpuTurn | Read | HeaderRead | RecoveryRead | Write | DurabilityFence
    | PeerRequest | Timer | AdmissionLease | DurableHandoff

  /** One exact dispatched operation. */
  datatype OperationRef = OperationRef(session: SessionRef, kind: OperationKind, operationId: nat, generation: nat) {

    /** A completion is expected only for the very operation that was dispatched. */
    predicate IsExpectedFor(expected: OperationRef)
      ensures IsExpectedFor(expected) <==> this == expected
    {
      && session == expected.session
      && kind == expected.kind
      && operationId == expected.operationId
      && generation == expected.generation
    }
  }

  /** The id after the 64-bit value `n`: the counter wraps past the reserved zero. */
  function Succ(n: nat): nat {
    var wrapped := if n + 1 < U64 then n + 1 else n + 1 - U64;
    if wrapped < 1 then 1 else wrapped
  }

  /** The id drawn by the `k`-th call on a new counter. */
  function NthId(k: nat): nat {
    if k == 0 then 1 else Succ(NthId(k - 1))
  }

  lemma SuccIs(n: nat)
    requires n < U64
    ensures Succ(n) == if n == U64 - 1 then 1 else n + 1
  {
  }

  /** Zero, the reserved id, is never drawn. */
  lemma {:induction false} IdsValid(k: nat)
    ensures 1 <= NthId(k) < U64
  {
    if k > 0 {
      IdsValid(k - 1);
      SuccIs(NthId(k - 1));
    }
  }

  /** Ids count up from 1 to 2^64 - 1 and then start over. */
  lemma {:induction false} IdsCountUp(j: nat, d: nat)
    requires d < U64
    ensures NthId(j + d) == if NthId(j) + d < U64 then NthId(j) + d else NthId(j) + d - (U64 - 1)
  {
    IdsValid(j);
    if d > 0 {
      IdsCountUp(j, d - 1);
      SuccIs(NthId(j + d - 1));
    }
  }

  /** Any 2^64 - 1 consecutive ids are distinct; the next one repeats the first. */
  lemma IdsFresh(j: nat, k: nat)
    requires j < k
    ensures k - j < U64 - 1 ==> NthId(j) != NthId(k)
    ensures k - j == U64 - 1 ==> NthId(j) == NthId(k)
  {
    IdsValid(j);
    if k - j < U64 {
      IdsCountUp(j, k - j);
    }
  }

  /** The coordinator's source of ids. */
  class IdCounter {
    var next: nat
    ghost var drawn: nat

    ghost predicate Valid()
      reads this
    {
      next == NthId(drawn)
    }

    constructor ()
      ensures Valid() && drawn == 0 && next == 1
    {
      next := 1;
      drawn := 0;
    }

    /** Draws the next id: the `drawn`-th of the sequence. */
    method NextId() returns (id: nat)
      requires Valid()
      modifies this
      ensures Valid() && drawn == old(drawn) + 1
      ensures id == old(next) == NthId(old(drawn)) && next == Succ(old(next))
    {
      id := next;
      next := Succ(next);
      drawn := drawn + 1;
    }
  }
}

/**
  The admission gate: a lock-free reservation protocol over two atomic
  counters, and the leases it hands out.

  The protocol is a step system. Any number of activities run at once, each
  one a call that reserves capacity and, when admitted, the lease it returns.
  Every atomic instruction is one step: reserving bytes, reserving packets,
  rolling bytes back, taking a lease id, each compare-exchange on the lease's
  flag, and the two subtractions of a release. Steps of different activities
  interleave freely.
*/
module Admission {
  import opened Basics

  datatype Budget = Budget(maxPackets: nat, maxBytes: nat)

  /** Where one reservation stands. `packets` and `bytes` are the caller's amounts. */
  datatype Activity =
    | ReservingBytes(packets: nat, bytes: nat)
    | ReservingPackets(packets: nat, bytes: nat)
    | RollingBack(bytes: nat)
    | TakingId(packets: nat, bytes: nat)
    | Open(packets: nat, bytes: nat, id: nat)
    | Consumed(packets: nat, bytes: nat, id: nat)
    | ReleasingPackets(packets: nat, bytes: nat, id: nat)
    | ReleasingBytes(bytes: nat, id: nat)
    | Deferred
    | Released(id: nat)

  /** The shared gate and everything in progress on it. */
  datatype Gate = Gate(budget: Budget, packets: nat, bytes: nat, nextLease: nat, acts: seq<Activity>)

  /** One atomic step; an index names the activity that takes it. */
  datatype Step =
    | Begin(packetCount: nat, byteCount: nat)
    | ReserveBytes(i: nat)
    | ReservePackets(i: nat)
    | RollBack(i: nat)
    | TakeId(i: nat)
    | Consume(i: nat)
    | Settle(i: nat)
    | DropOpen(i: nat)
    | SubPackets(i: nat)
    | SubBytes(i: nat)

  function NewGate(budget: Budget): Gate {
    Gate(budget, 0, 0, 1, [])
  }

  /** Checked addition that stays within `max`: the closure of `fetch_update`. */
  predicate Fits(counter: nat, max: nat, amount: nat) {
    amount == 0 || (counter + amount < U64 && counter + amount <= max)
  }

  /** `fetch_sub` on a 64-bit counter wraps around; both operands are 64-bit values. */
  function FetchSub(counter: nat, amount: nat): nat {
    if amount <= counter then counter - amount
    else if amount - counter < U64 then U64 - (amount - counter)
    else 0
  }

  /** Addition of two 64-bit values wraps around. */
  function FetchAdd(counter: nat, amount: nat): nat {
    if counter + amount < U64 then counter + amount else counter + amount - U64
  }

  /** What a step does to the activity that takes it and to the shared counters. */
  datatype Effect = Effect(act: Activity, packets: nat, bytes: nat, nextLease: nat)

  /** A step an activity is not ready for changes nothing. */
  function Act(g: Gate, step: Step, a: Activity): Effect
    requires !step.Begin?
  {
    match step
    case ReserveBytes(_) =>
      if !a.ReservingBytes? then Effect(a, g.packets, g.bytes, g.nextLease)
      else if Fits(g.bytes, g.budget.maxBytes, a.bytes) then
        Effect(ReservingPackets(a.packets, a.bytes), g.packets, g.bytes + a.bytes, g.nextLease)
      else Effect(Deferred, g.packets, g.bytes, g.nextLease)
    case ReservePackets(_) =>
      if !a.ReservingPackets? then Effect(a, g.packets, g.bytes, g.nextLease)
      else if Fits(g.packets, g.budget.maxPackets, a.packets) then
        Effect(TakingId(a.packets, a.bytes), g.packets + a.packets, g.bytes, g.nextLease)
      else Effect(RollingBack(a.bytes), g.packets, g.bytes, g.nextLease)
    case RollBack(_) =>
      if !a.RollingBack? then Effect(a, g.packets, g.bytes, g.nextLease)
      else Effect(Deferred, g.packets, FetchSub(g.bytes, a.bytes), g.nextLease)
    case TakeId(_) =>
      if !a.TakingId? then Effect(a, g.packets, g.bytes, g.nextLease)
      else Effect(Open(a.packets, a.bytes, g.nextLease), g.packets, g.bytes, FetchAdd(g.nextLease, 1))
    case Consume(_) =>
      if !a.Open? then Effect(a, g.packets, g.bytes, g.nextLease)
      else Effect(Consumed(a.packets, a.bytes, a.id), g.packets, g.bytes, g.nextLease)
    case Settle(_) =>
      if !a.Consumed? then Effect(a, g.packets, g.bytes, g.nextLease)
      else Effect(ReleasingPackets(a.packets, a.bytes, a.id), g.packets, g.bytes, g.nextLease)
    case DropOpen(_) =>
      if !a.Open? then Effect(a, g.packets, g.bytes, g.nextLease)
      else Effect(ReleasingPackets(a.packets, a.bytes, a.id), g.packets, g.bytes, g.nextLease)
    case SubPackets(_) =>
      if !a.ReleasingPackets? then Effect(a, g.packets, g.bytes, g.nextLease)
      else Effect(ReleasingBytes(a.bytes, a.id), FetchSub(g.packets, a.packets), g.bytes, g.nextLease)
    case SubBytes(_) =>
      if !a.ReleasingBytes? then Effect(a, g.packets, g.bytes, g.nextLease)
      else Effect(Released(a.id), g.packets, FetchSub(g.bytes, a.bytes), g.nextLease)
  }

  /** The gate after one step. A call with no packets counts as one packet. */
  function Do(g: Gate, step: Step): Gate {
    if step.Begin? then
      g.(acts := g.acts + [ReservingBytes(if step.packetCount == 0 then 1 else step.packetCount, step.byteCount)])
    else if step.i < |g.acts| then
      var e := Act(g, step, g.acts[step.i]);
      Gate(g.budget, e.packets, e.bytes, e.nextLease, g.acts[step.i := e.act])
    else g
  }

  /** The gate after a run of steps. */
  function Run(g: Gate, steps: seq<Step>): Gate {
    if steps == [] then g else Do(Run(g, steps[..|steps| - 1]), steps[|steps| - 1])
  }

  // ------------------------------------------------------------------------
  // Conservation.
  // ------------------------------------------------------------------------

  /** The packets an activity has added and not yet given back. */
  function HeldPackets(a: Activity): nat {
    if a.TakingId? || a.Open? || a.Consumed? || a.ReleasingPackets? then a.packets else 0
  }

  function HeldBytes(a: Activity): nat {
    if a.ReservingBytes? || a.Deferred? || a.Released? then 0 else a.bytes
  }

  function SumPackets(acts: seq<Activity>): nat {
    if acts == [] then 0 else HeldPackets(acts[0]) + SumPackets(acts[1..])
  }

  function SumBytes(acts: seq<Activity>): nat {
    if acts == [] then 0 else HeldBytes(acts[0]) + SumBytes(acts[1..])
  }

  lemma {:induction false} SumsPut(acts: seq<Activity>, i: nat, a: Activity)
    requires i < |acts|
    ensures SumPackets(acts[i := a]) == SumPackets(acts) - HeldPackets(acts[i]) + HeldPackets(a)
    ensures SumBytes(acts[i := a]) == SumBytes(acts) - HeldBytes(acts[i]) + HeldBytes(a)
    ensures HeldPackets(acts[i]) <= SumPackets(acts) && HeldBytes(acts[i]) <= SumBytes(acts)
  {
    if i > 0 {
      SumsPut(acts[1..], i - 1, a);
      assert acts[i := a][1..] == acts[1..][i - 1 := a];
    } else {
      assert acts[0 := a][1..] == acts[1..];
    }
  }

  lemma {:induction false} SumsAppend(acts: seq<Activity>, a: Activity)
    ensures SumPackets(acts + [a]) == SumPackets(acts) + HeldPackets(a)
    ensures SumBytes(acts + [a]) == SumBytes(acts) + HeldBytes(a)
  {
    if acts != [] {
      SumsAppend(acts[1..], a);
      assert (acts + [a])[1..] == acts[1..] + [a];
    }
  }

  ghost predicate IsU64(n: nat) {
    n < U64
  }

  /** Each counter is exactly what the activities hold, and within budget. */
  ghost predicate Conserved(g: Gate) {
    && IsU64(g.budget.maxPackets) && IsU64(g.budget.maxBytes)
    && g.packets == SumPackets(g.acts) <= g.budget.maxPackets
    && g.bytes == SumBytes(g.acts) <= g.budget.maxBytes
  }

  /** A step moves each counter by exactly what its activity gains or gives up: nothing wraps. */
  lemma ActIsExact(g: Gate, step: Step, a: Activity)
    requires !step.Begin?
    requires HeldPackets(a) <= g.packets <= g.budget.maxPackets < U64
    requires HeldBytes(a) <= g.bytes <= g.budget.maxBytes < U64
    ensures var e := Act(g, step, a);
            && e.packets == g.packets - HeldPackets(a) + HeldPackets(e.act) <= g.budget.maxPackets
            && e.bytes == g.bytes - HeldBytes(a) + HeldBytes(e.act) <= g.budget.maxBytes
  {
  }

  /** One step of any activity keeps the counters exact. */
  lemma StepConserves(g: Gate, step: Step)
    requires Conserved(g)
    ensures Conserved(Do(g, step)) && Do(g, step).budget == g.budget
  {
    if step.Begin? {
      SumsAppend(g.acts, Do(g, step).acts[|g.acts|]);
    } else if step.i < |g.acts| {
      var a := g.acts[step.i];
      SumsPut(g.acts, step.i, Act(g, step, a).act);
      ActIsExact(g, step, a);
    }
  }

  /** In every interleaving the counters are exact and within budget. */
  lemma {:induction false} RunConserves(budget: Budget, steps: seq<Step>)
    requires IsU64(budget.maxPackets) && IsU64(budget.maxBytes)
    ensures Conserved(Run(NewGate(budget), steps)) && Run(NewGate(budget), steps).budget == budget
  {
    if steps != [] {
      RunConserves(budget, steps[..|steps| - 1]);
      StepConserves(Run(NewGate(budget), steps[..|steps| - 1]), steps[|steps| - 1]);
    }
  }

  ghost predicate Quiescent(g: Gate) {
    forall i :: 0 <= i < |g.acts| ==> g.acts[i].Deferred? || g.acts[i].Released?
  }

  lemma {:induction false} NothingHeld(acts: seq<Activity>)
    requires forall i :: 0 <= i < |acts| ==> acts[i].Deferred? || acts[i].Released?
    ensures SumPackets(acts) == 0 && SumBytes(acts) == 0
  {
    if acts != [] {
      NothingHeld(acts[1..]);
    }
  }

  /** When every activity has ended, both counters are zero. */
  lemma QuiescentIsEmpty(budget: Budget, steps: seq<Step>)
    requires IsU64(budget.maxPackets) && IsU64(budget.maxBytes)
    requires Quiescent(Run(NewGate(budget), steps))
    ensures Run(NewGate(budget), steps).packets == 0 && Run(NewGate(budget), steps).bytes == 0
  {
    RunConserves(budget, steps);
    NothingHeld(Run(NewGate(budget), steps).acts);
  }

  // ------------------------------------------------------------------------
  // Each lease is released exactly once.
  // ------------------------------------------------------------------------

  /** `step` wins the compare-exchange that releases lease `i`. */
  predicate WinsRelease(g: Gate, step: Step, i: nat) {
    && i < |g.acts|
    && ((step == Settle(i) && g.acts[i].Consumed?) || (step == DropOpen(i) && g.acts[i].Open?))
  }

  /** How often lease `i` was released during a run. */
  function Releases(g: Gate, steps: seq<Step>, i: nat): nat {
    if steps == [] then 0
    else
      var before := steps[..|steps| - 1];
      Releases(g, before, i) + if WinsRelease(Run(g, before), steps[|steps| - 1], i) then 1 else 0
  }

  predicate ReleaseStarted(a: Activity) {
    a.ReleasingPackets? || a.ReleasingBytes? || a.Released?
  }

  /** A lease is released once if its release has started, never otherwise. */
  lemma {:induction false} ReleasedOnce(budget: Budget, steps: seq<Step>, i: nat)
    ensures var g := Run(NewGate(budget), steps);
            Releases(NewGate(budget), steps, i) == if i < |g.acts| && ReleaseStarted(g.acts[i]) then 1 else 0
  {
    if steps != [] {
      var before := steps[..|steps| - 1];
      ReleasedOnce(budget, before, i);
      hide Do;
      ReleaseStep(Run(NewGate(budget), before), steps[|steps| - 1], i);
    }
  }

  /** A release starts exactly by winning it, and never starts over. */
  lemma ReleaseStep(g: Gate, step: Step, i: nat)
    ensures var h := Do(g, step);
            (i < |h.acts| && ReleaseStarted(h.acts[i]))
            <==> (i < |g.acts| && ReleaseStarted(g.acts[i])) || WinsRelease(g, step, i)
    ensures WinsRelease(g, step, i) ==> !ReleaseStarted(g.acts[i])
  {
  }

  predicate HasId(a: Activity) {
    a.Open? || a.Consumed? || a.ReleasingPackets? || a.ReleasingBytes? || a.Released?
  }

  /** Every lease id was taken from the counter, and no two leases share one. */
  ghost predicate DistinctIds(g: Gate) {
    && (forall i :: 0 <= i < |g.acts| && HasId(g.acts[i]) ==> 1 <= g.acts[i].id < g.nextLease)
    && (forall i, j :: 0 <= i < j < |g.acts| && HasId(g.acts[i]) && HasId(g.acts[j]) ==> g.acts[i].id != g.acts[j].id)
  }

  /** An activity keeps its id, or takes the counter's. */
  lemma ActKeepsId(g: Gate, step: Step, a: Activity)
    requires !step.Begin? && g.nextLease < U64 - 1
    ensures var e := Act(g, step, a);
            && (e.nextLease == g.nextLease || e.nextLease == g.nextLease + 1)
            && (HasId(e.act) ==> || (HasId(a) && e.act.id == a.id)
                                 || (e.act.id == g.nextLease && e.nextLease == g.nextLease + 1))
  {
    hide FetchSub, Fits;
  }

  lemma StepKeepsIdsDistinct(g: Gate, step: Step)
    requires DistinctIds(g) && 1 <= g.nextLease < U64 - 1
    ensures DistinctIds(Do(g, step))
    ensures g.nextLease <= Do(g, step).nextLease <= g.nextLease + 1
  {
    hide Act, HasId;
    if step.Begin? {
      BegunHasNoId(step);
    } else if step.i < |g.acts| {
      ActKeepsId(g, step, g.acts[step.i]);
    }
  }

  lemma BegunHasNoId(step: Step)
    requires step.Begin?
    ensures !HasId(ReservingBytes(if step.packetCount == 0 then 1 else step.packetCount, step.byteCount))
  {
  }

  /** Lease ids are unique in every run shorter than the 64-bit counter. */
  lemma {:induction false} LeaseIdsUnique(budget: Budget, steps: seq<Step>)
    requires |steps| < U64 - 2
    ensures var g := Run(NewGate(budget), steps);
            DistinctIds(g) && 1 <= g.nextLease <= 1 + |steps|
  {
    if steps != [] {
      var before := steps[..|steps| - 1];
      LeaseIdsUnique(budget, before);
      StepKeepsIdsDistinct(Run(NewGate(budget), before), steps[|steps| - 1]);
    }
  }

  // ------------------------------------------------------------------------
  // Capacity never leaks.
  // ------------------------------------------------------------------------

  /** Steps that end activity `i` wherever it stands. */
  function Finish(i: nat): seq<Step> {
    [ReserveBytes(i), ReservePackets(i), RollBack(i), TakeId(i), Settle(i), DropOpen(i), SubPackets(i), SubBytes(i)]
  }

  function FinishFirst(n: nat): seq<Step> {
    if n == 0 then [] else FinishFirst(n - 1) + Finish(n - 1)
  }

  lemma {:induction false} RunAppend(g: Gate, a: seq<Step>, b: seq<Step>)
    ensures Run(g, a + b) == Run(Run(g, a), b)
    decreases |b|
  {
    if b == [] {
      assert a + b == a;
    } else {
      RunAppend(g, a, b[..|b| - 1]);
      assert (a + b)[..|a + b| - 1] == a + b[..|b| - 1];
    }
  }

  /** A step of activity `i` leaves every other activity where it was. */
  ghost predicate OthersKept(g: Gate, h: Gate, i: nat) {
    && |h.acts| == |g.acts|
    && forall j :: 0 <= j < |g.acts| && j != i ==> h.acts[j] == g.acts[j]
  }

  /** How far an activity has come. */
  function Stage(a: Activity): nat {
    match a
    case ReservingBytes(_, _) => 0
    case ReservingPackets(_, _) => 1
    case RollingBack(_) => 2
    case TakingId(_, _) => 3
    case Open(_, _, _) => 4
    case Consumed(_, _, _) => 4
    case ReleasingPackets(_, _, _) => 5
    case ReleasingBytes(_, _) => 6
    case Deferred => 7
    case Released(_) => 7
  }

  /** Where an activity stands, at the least, after the first `k` finishing steps. */
  predicate Reached(a: Activity, k: nat) {
    if k <= 4 then Stage(a) >= k
    else if k == 5 then Stage(a) >= 4 && !a.Consumed?
    else Stage(a) >= k - 1
  }

  lemma FinishAdvances(g: Gate, i: nat, k: nat)
    requires i < |g.acts| && k < 8 && Reached(g.acts[i], k)
    ensures var h := Do(g, Finish(i)[k]);
            OthersKept(g, h, i) && Reached(h.acts[i], k + 1)
  {
    assert Finish(i)[k].i == i;
  }

  lemma {:induction false} FinishEnds(g: Gate, i: nat, k: nat)
    requires i < |g.acts| && k <= 8
    ensures var h := Run(g, Finish(i)[..k]);
            OthersKept(g, h, i) && Reached(h.acts[i], k)
  {
    if k > 0 {
      FinishEnds(g, i, k - 1);
      var steps := Finish(i)[..k];
      assert steps[..|steps| - 1] == Finish(i)[..k - 1];
      FinishAdvances(Run(g, Finish(i)[..k - 1]), i, k - 1);
    }
  }

  /** From every state the gate can be driven to rest, and then holds nothing. */
  lemma {:induction false} DrainsToZero(g: Gate, n: nat)
    requires n <= |g.acts|
    ensures var h := Run(g, FinishFirst(n));
            && |h.acts| == |g.acts|
            && (forall j :: 0 <= j < n ==> h.acts[j].Deferred? || h.acts[j].Released?)
  {
    if n > 0 {
      DrainsToZero(g, n - 1);
      RunAppend(g, FinishFirst(n - 1), Finish(n - 1));
      FinishEnds(Run(g, FinishFirst(n - 1)), n - 1, 8);
      assert Finish(n - 1)[..8] == Finish(n - 1);
    }
  }

  /** After any run, ending every activity returns the whole budget. */
  lemma NoLeak(budget: Budget, steps: seq<Step>)
    requires IsU64(budget.maxPackets) && IsU64(budget.maxBytes)
    ensures var g := Run(NewGate(budget), steps);
            var rest := Run(g, FinishFirst(|g.acts|));
            rest.packets == 0 && rest.bytes == 0
  {
    var g := Run(NewGate(budget), steps);
    var finish := FinishFirst(|g.acts|);
    DrainsToZero(g, |g.acts|);
    RunAppend(NewGate(budget), steps, finish);
    QuiescentIsEmpty(budget, steps + finish);
  }

  // ------------------------------------------------------------------------
  // An uncontended reservation.
  // ------------------------------------------------------------------------

  /** The steps one caller takes when nobody interferes. */
  function TryReserve(g: Gate, packetCount: nat, byteCount: nat): Gate {
    var i := |g.acts|;
    Do(Do(Do(Do(Do(g, Begin(packetCount, byteCount)), ReserveBytes(i)), ReservePackets(i)), RollBack(i)), TakeId(i))
  }

  /** Admitted exactly when both amounts fit; a deferred caller leaves no trace on the counters. */
  lemma TryReserveAdmits(g: Gate, packetCount: nat, byteCount: nat)
    requires Conserved(g)
    ensures var p := if packetCount == 0 then 1 else packetCount;
            var i := |g.acts|;
            var h := TryReserve(g, packetCount, byteCount);
            if g.packets + p <= g.budget.maxPackets && g.bytes + byteCount <= g.budget.maxBytes then
              h.acts == g.acts + [Open(p, byteCount, g.nextLease)]
              && h.packets == g.packets + p && h.bytes == g.bytes + byteCount
            else
              h.acts == g.acts + [Deferred] && h.packets == g.packets && h.bytes == g.bytes
              && h.nextLease == g.nextLease
  {
  }
}

/**
  The bounded packet mailbox of one session, and its composition with the
  gate that admitted the packets.
*/
module Mailbox {
  import opened Basics
  import opened Admission

  /** An admitted packet: the activity that reserved for it, and its lease amounts. */
  datatype Packet = Packet(lease: nat, packets: nat, bytes: nat)

  datatype MailboxState = MailboxState(
    queue: seq<Packet>, packetCount: nat, packetBytes: nat, maxPackets: nat, maxBytes: nat)

  function SatAdd(a: nat, b: nat): nat {
    if a + b >= U64 then U64 - 1 else a + b
  }

  function SatSub(a: nat, b: nat): nat {
    if a < b then 0 else a - b
  }

  function QueuedPackets(q: seq<Packet>): nat {
    if q == [] then 0 else q[0].packets + QueuedPackets(q[1..])
  }

  function QueuedBytes(q: seq<Packet>): nat {
    if q == [] then 0 else q[0].bytes + QueuedBytes(q[1..])
  }

  lemma {:induction false} QueuedAppend(q: seq<Packet>, p: Packet)
    ensures QueuedPackets(q + [p]) == QueuedPackets(q) + p.packets
    ensures QueuedBytes(q + [p]) == QueuedBytes(q) + p.bytes
  {
    if q != [] {
      QueuedAppend(q[1..], p);
      assert (q + [p])[1..] == q[1..] + [p];
    }
  }

  /** The counters are the sums over the queued leases and stay within bounds. */
  ghost predicate Exact(m: MailboxState) {
    && IsU64(m.maxPackets) && IsU64(m.maxBytes)
    && m.packetCount == QueuedPackets(m.queue) <= m.maxPackets
    && m.packetBytes == QueuedBytes(m.queue) <= m.maxBytes
  }

  /** Neither bound is the largest 64-bit value, where saturation hides an overflow. */
  predicate Bounded(m: MailboxState) {
    m.maxPackets < U64 - 1 && m.maxBytes < U64 - 1
  }

  /**
    The saturating test is the exact one for every 64-bit amount if and only
    if the bound is below the largest 64-bit value or nothing is counted yet.
  */
  lemma SaturatingTestExact(count: nat, max: nat)
    requires count <= max < U64
    ensures (forall amount: nat :: amount < U64 ==> (SatAdd(count, amount) <= max <==> count + amount <= max))
            <==> max < U64 - 1 || count == 0
  {
    if max == U64 - 1 && count > 0 {
      assert SatAdd(count, U64 - 1) <= max;
    }
  }

  predicate HasRoom(m: MailboxState, p: Packet) {
    SatAdd(m.packetCount, p.packets) <= m.maxPackets && SatAdd(m.packetBytes, p.bytes) <= m.maxBytes
  }

  function Pushed(m: MailboxState, p: Packet): MailboxState {
    if HasRoom(m, p) then
      m.(queue := m.queue + [p],
         packetCount := FetchAdd(m.packetCount, p.packets),
         packetBytes := FetchAdd(m.packetBytes, p.bytes))
    else m
  }

  function Popped(m: MailboxState): MailboxState {
    if m.queue == [] then m
    else
      m.(queue := m.queue[1..],
         packetCount := SatSub(m.packetCount, m.queue[0].packets),
         packetBytes := SatSub(m.packetBytes, m.queue[0].bytes))
  }

  function Cleared(m: MailboxState): MailboxState {
    m.(queue := [], packetCount := 0, packetBytes := 0)
  }

  predicate TrulyFits(m: MailboxState, p: Packet) {
    m.packetCount + p.packets <= m.maxPackets && m.packetBytes + p.bytes <= m.maxBytes
  }

  /** A push keeps the counters exact if and only if it is refused or truly fits; below the largest bound it always does. */
  lemma PushKeepsExact(m: MailboxState, p: Packet)
    requires Exact(m)
    ensures Exact(Pushed(m, p)) <==> !HasRoom(m, p) || TrulyFits(m, p)
    ensures Bounded(m) ==> (HasRoom(m, p) <==> TrulyFits(m, p))
  {
    QueuedAppend(m.queue, p);
  }

  /**
    Under the largest bound the test lets an overflow through: with one packet
    queued, a lease of the largest amount is admitted although it does not
    fit, and the counter wraps to zero while both are queued.
  */
  lemma SaturationAdmitsOverflow()
    ensures var m, p := MailboxState([Packet(0, 1, 0)], 1, 0, U64 - 1, U64 - 1), Packet(1, U64 - 1, 0);
            && Exact(m) && HasRoom(m, p) && !TrulyFits(m, p)
            && Pushed(m, p).queue == m.queue + [p] && Pushed(m, p).packetCount == 0 && !Exact(Pushed(m, p))
  {
    var m, p := MailboxState([Packet(0, 1, 0)], 1, 0, U64 - 1, U64 - 1), Packet(1, U64 - 1, 0);
    assert m.queue[1..] == [];
    PushKeepsExact(m, p);
  }

  lemma PopKeepsExact(m: MailboxState)
    requires Exact(m)
    ensures Exact(Popped(m)) && Exact(Cleared(m))
  {
  }

  class SessionMailbox {
    var queue: seq<Packet>
    var packetCount: nat
    var packetBytes: nat
    const maxPackets: nat
    const maxBytes: nat

    function State(): MailboxState
      reads this
    {
      MailboxState(queue, packetCount, packetBytes, maxPackets, maxBytes)
    }

    ghost predicate Valid()
      reads this
    {
      Exact(State())
    }

    constructor (maxPackets: nat, maxBytes: nat)
      requires IsU64(maxPackets) && IsU64(maxBytes)
      ensures Valid() && State() == MailboxState([], 0, 0, maxPackets, maxBytes)
    {
      this.queue, this.packetCount, this.packetBytes := [], 0, 0;
      this.maxPackets, this.maxBytes := maxPackets, maxBytes;
    }

    /** Refused exactly when the queued leases and this one exceed a bound; then nothing changes. */
    method Push(p: Packet) returns (ok: bool)
      modifies this
      ensures State() == Pushed(old(State()), p)
      ensures ok <==> HasRoom(old(State()), p)
      ensures old(Valid()) && Bounded(State()) ==>
                Valid()
                && (ok <==> old(QueuedPackets(queue)) + p.packets <= maxPackets
                            && old(QueuedBytes(queue)) + p.bytes <= maxBytes)
      ensures old(Valid()) ==> (Valid() <==> !ok || TrulyFits(old(State()), p))
      ensures queue == if ok then old(queue) + [p] else old(queue)
    {
      if Exact(State()) {
        PushKeepsExact(State(), p);
      }
      if SatAdd(packetCount, p.packets) > maxPackets || SatAdd(packetBytes, p.bytes) > maxBytes {
        return false;
      }
      packetCount := FetchAdd(packetCount, p.packets);
      packetBytes := FetchAdd(packetBytes, p.bytes);
      queue := queue + [p];
      return true;
    }

    method PopFront() returns (empty: bool, p: Packet)
      modifies this
      ensures State() == Popped(old(State())) && (old(Valid()) ==> Valid())
      ensures empty <==> old(queue) == []
      ensures !empty ==> old(queue) == [p] + queue
    {
      if Exact(State()) {
        PopKeepsExact(State());
      }
      if queue == [] {
        return true, Packet(0, 0, 0);
      }
      p := queue[0];
      queue := queue[1..];
      packetCount := SatSub(packetCount, p.packets);
      packetBytes := SatSub(packetBytes, p.bytes);
      empty := false;
    }

    method Clear()
      modifies this
      ensures State() == Cleared(old(State())) && (old(Valid()) ==> Valid())
    {
      queue := [];
      packetCount := 0;
      packetBytes := 0;
    }
  }

  // ------------------------------------------------------------------------
  // One gate feeding one mailbox with the same budget.
  // ------------------------------------------------------------------------

  datatype Route = Route(gate: Gate, mail: MailboxState)

  datatype RouteStep =
    | AtGate(step: Step)
    | PushPacket(lease: nat)
    | PopPacket
    | ClearMailbox

  predicate Queued(q: seq<Packet>, lease: nat) {
    exists k :: 0 <= k < |q| && q[k].lease == lease
  }

  /** The packet made of a consumed lease. */
  function PacketOf(g: Gate, lease: nat): Packet
    requires lease < |g.acts| && g.acts[lease].Consumed?
  {
    Packet(lease, g.acts[lease].packets, g.acts[lease].bytes)
  }

  /** A queued packet is owned by the mailbox: nobody else can settle it; a packet is pushed once. */
  predicate Allowed(r: Route, step: RouteStep) {
    match step
    case AtGate(s) => !s.Begin? ==> !Queued(r.mail.queue, s.i)
    case PushPacket(lease) => lease < |r.gate.acts| && r.gate.acts[lease].Consumed? && !Queued(r.mail.queue, lease)
    case PopPacket => true
    case ClearMailbox => true
  }

  function DoRoute(r: Route, step: RouteStep): Route
    requires Allowed(r, step)
  {
    match step
    case AtGate(s) => r.(gate := Do(r.gate, s))
    case PushPacket(lease) => r.(mail := Pushed(r.mail, PacketOf(r.gate, lease)))
    case PopPacket => r.(mail := Popped(r.mail))
    case ClearMailbox => r.(mail := Cleared(r.mail))
  }

  function NewRoute(budget: Budget): Route {
    Route(NewGate(budget), MailboxState([], 0, 0, budget.maxPackets, budget.maxBytes))
  }

  /** Queued packets are distinct consumed leases of this very gate. */
  ghost predicate Backed(r: Route) {
    var q := r.mail.queue;
    && Conserved(r.gate) && Exact(r.mail)
    && r.mail.maxPackets == r.gate.budget.maxPackets && r.mail.maxBytes == r.gate.budget.maxBytes
    && (forall k :: 0 <= k < |q| ==>
         q[k].lease < |r.gate.acts| && r.gate.acts[q[k].lease].Consumed? && q[k] == PacketOf(r.gate, q[k].lease))
    && (forall j, k :: 0 <= j < k < |q| ==> q[j].lease != q[k].lease)
  }

  lemma RouteStepBacked(r: Route, step: RouteStep)
    requires Backed(r) && Allowed(r, step)
    ensures Backed(DoRoute(r, step))
  {
    match step
    case AtGate(s) => StepConserves(r.gate, s);
    case PushPacket(lease) =>
      PushNeverFails(r, lease);
      PushKeepsExact(r.mail, PacketOf(r.gate, lease));
    case PopPacket => PopKeepsExact(r.mail);
    case ClearMailbox =>
  }

  ghost predicate IsRun(steps: seq<RouteStep>, states: seq<Route>, budget: Budget) {
    && |states| == |steps| + 1
    && states[0] == NewRoute(budget)
    && forall k :: 0 <= k < |steps| ==> Allowed(states[k], steps[k]) && states[k + 1] == DoRoute(states[k], steps[k])
  }

  /** What the activities whose index is in `s` hold. */
  function MarkedPackets(acts: seq<Activity>, s: set<nat>): nat {
    if acts == [] then 0
    else MarkedPackets(acts[..|acts| - 1], s) + if |acts| - 1 in s then HeldPackets(acts[|acts| - 1]) else 0
  }

  function MarkedBytes(acts: seq<Activity>, s: set<nat>): nat {
    if acts == [] then 0
    else MarkedBytes(acts[..|acts| - 1], s) + if |acts| - 1 in s then HeldBytes(acts[|acts| - 1]) else 0
  }

  lemma {:induction false} MarkedAtMostAll(acts: seq<Activity>, s: set<nat>)
    ensures MarkedPackets(acts, s) <= SumPackets(acts) && MarkedBytes(acts, s) <= SumBytes(acts)
  {
    if acts != [] {
      var front := acts[..|acts| - 1];
      MarkedAtMostAll(front, s);
      SumsAppend(front, acts[|acts| - 1]);
      assert acts == front + [acts[|acts| - 1]];
    }
  }

  lemma {:induction false} MarkOne(acts: seq<Activity>, s: set<nat>, i: nat)
    requires i !in s
    ensures MarkedPackets(acts, s + {i}) == MarkedPackets(acts, s) + if i < |acts| then HeldPackets(acts[i]) else 0
    ensures MarkedBytes(acts, s + {i}) == MarkedBytes(acts, s) + if i < |acts| then HeldBytes(acts[i]) else 0
  {
    if acts != [] {
      MarkOne(acts[..|acts| - 1], s, i);
    }
  }

  function LeasesOf(q: seq<Packet>): set<nat> {
    set p | p in q :: p.lease
  }

  lemma {:induction false} QueuedIsMarked(acts: seq<Activity>, q: seq<Packet>)
    requires forall k :: 0 <= k < |q| ==> q[k].lease < |acts| && acts[q[k].lease].Consumed?
    requires forall k :: 0 <= k < |q| ==> q[k].packets == acts[q[k].lease].packets && q[k].bytes == acts[q[k].lease].bytes
    requires forall j, k :: 0 <= j < k < |q| ==> q[j].lease != q[k].lease
    ensures QueuedPackets(q) == MarkedPackets(acts, LeasesOf(q)) && QueuedBytes(q) == MarkedBytes(acts, LeasesOf(q))
  {
    if q == [] {
      NothingMarked(acts);
      assert LeasesOf(q) == {};
    } else {
      QueuedIsMarked(acts, q[1..]);
      NotAmong(q);
      MarkOne(acts, LeasesOf(q[1..]), q[0].lease);
      LeasesOfCons(q);
    }
  }

  lemma LeasesOfCons(q: seq<Packet>)
    requires q != []
    ensures LeasesOf(q) == LeasesOf(q[1..]) + {q[0].lease}
  {
    assert q == [q[0]] + q[1..];
  }

  lemma NotAmong(q: seq<Packet>)
    requires q != [] && forall k :: 0 < k < |q| ==> q[0].lease != q[k].lease
    ensures q[0].lease !in LeasesOf(q[1..])
  {
    forall p | p in q[1..]
      ensures p.lease != q[0].lease
    {
      var k :| 0 <= k < |q[1..]| && q[1..][k] == p;
      assert q[k + 1] == p;
    }
  }

  lemma {:induction false} NothingMarked(acts: seq<Activity>)
    ensures MarkedPackets(acts, {}) == 0 && MarkedBytes(acts, {}) == 0
  {
    if acts != [] {
      NothingMarked(acts[..|acts| - 1]);
    }
  }

  /** A live packet of the same gate always fits: what the mailbox holds is part of what the gate granted. */
  lemma PushNeverFails(r: Route, lease: nat)
    requires Backed(r) && Allowed(r, PushPacket(lease))
    ensures HasRoom(r.mail, PacketOf(r.gate, lease)) && TrulyFits(r.mail, PacketOf(r.gate, lease))
  {
    var p := PacketOf(r.gate, lease);
    var q := r.mail.queue + [p];
    QueuedAppend(r.mail.queue, p);
    QueuedIsMarked(r.gate.acts, q);
    MarkedAtMostAll(r.gate.acts, LeasesOf(q));
  }

  /** In every run of gate and mailbox the counters are sums over leases, and no live push is refused. */
  lemma {:induction false} RunsNeverRefuse(steps: seq<RouteStep>, states: seq<Route>, budget: Budget, k: nat)
    requires IsU64(budget.maxPackets) && IsU64(budget.maxBytes)
    requires IsRun(steps, states, budget) && k <= |steps|
    ensures Backed(states[k])
    ensures k < |steps| && steps[k].PushPacket? ==>
              states[k + 1].mail.queue == states[k].mail.queue + [PacketOf(states[k].gate, steps[k].lease)]
  {
    if k > 0 {
      RunsNeverRefuse(steps, states, budget, k - 1);
      RouteStepBacked(states[k - 1], steps[k - 1]);
    }
    if k < |steps| && steps[k].PushPacket? {
      PushNeverFails(states[k], steps[k].lease);
    }
  }
}

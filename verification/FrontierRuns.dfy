/**
  The network frontier over whole runs: what is owed, what was sent, and in
  which order, told step by step from what each operation announced, retired,
  sent or discarded. What an operation discards or probes again is read off
  the queues as they stood when it came.
*/
module FrontierRuns {
  import opened Identity
  import opened Lists
  import opened Frontiers
  import opened PlanSpec
  import opened PlanInvariants
  import opened PlanTurns
  import opened PlanRuns

  /** What one operation did to the frontier, as an outside observer sees it. */
  datatype Effect = Effect(
    resets: bool, gone: set<Need>, announced: seq<Need>, moved: seq<Need>, sent: seq<Need>, clears: bool)

  /** A recovery read that attached retires its exact need. */
  predicate Recovers(s: PlanState, op: Op) {
    && op.ReadDone? && s.rooted && op.op.kind == RecoveryRead
    && op.op in s.recoveryReads && op.apply.Applied?
  }

  ghost function EffectOf(w: World, op: Op): Effect
    requires Legal(op)
  {
    if op.Turn? then
      var r := TurnOf(w, op);
      Effect(r.restarted, r.retired, LastNodes(r.outcomes), Moved(r.turn), [], false)
    else if Recovers(w.plan, op) then Effect(false, {w.plan.recoveryReads[op.op]}, [], [], [], false)
    else if op.FinishLane? && w.plan.lanes != [] then
      Effect(false, Elements(w.plan.net.unemitted) + Elements(w.plan.net.backlog), [], [], [], false)
    else if op.TakeBatch? then Effect(false, {}, [], [], NormalBatch(w.plan, op.max), false)
    else if op.Terminalize? || op.Cancel? then Effect(true, {}, [], [], [], true)
    else Effect(false, {}, [], [], [], op.Minor? && (op.action.BeginTimeoutScan? || op.action.ClearRecent?))
  }

  /** The effect accounts for everything that happened to the queues and to the recent set. */
  ghost predicate Explains(e: Effect, net: Frontier, recent: set<Hash>, g: Frontier, recent': set<Hash>) {
    var base := Base(net, e.resets);
    var kept := Minus(base.retained, e.gone);
    && g.retained == kept + e.moved
    && e.sent + g.unemitted == Minus(base.unemitted, e.gone) + e.moved
    && e.moved + g.backlog == Queue(Minus(base.backlog, e.gone), kept, recent, e.announced)
    && (e.announced != [] ==> Minus(base.backlog, e.gone) == [])
    && recent' == (if e.clears then {} else recent + Hashes(e.sent))
    && (e.sent != [] ==> e.moved == [] && e.announced == [] && !e.clears)
  }

  lemma NothingSent()
    ensures Hashes([]) == {}
  {
  }

  /** A turn's facts are an explanation. */
  lemma MovesExplain(net: Frontier, g: Frontier, e: Effect, recent: set<Hash>, recent': set<Hash>)
    requires FrontierMoves(net, g, e.resets, e.gone, e.announced, recent, e.moved)
    requires e.sent == [] && recent' == if e.clears then {} else recent
    ensures Explains(e, net, recent, g, recent')
  {
    assert [] + g.unemitted == g.unemitted;
    NothingSent();
  }

  /** An unchanged frontier, up to the cursor. */
  lemma StillExplained(net: Frontier, g: Frontier, clears: bool, recent: set<Hash>)
    requires g == net.(cursor := g.cursor)
    ensures Explains(Effect(false, {}, [], [], [], clears), net, recent, g, if clears then {} else recent)
  {
    UnchangedMoves(net, recent);
    MovesExplain(net, g, Effect(false, {}, [], [], [], clears), recent, if clears then {} else recent);
  }

  lemma EmptyExplained(net: Frontier, recent: set<Hash>)
    ensures Explains(Effect(true, {}, [], [], [], true), net, recent, Empty(), {})
  {
    NothingSent();
  }

  lemma RetireExplained(net: Frontier, gone: set<Need>, recent: set<Hash>)
    ensures Explains(Effect(false, gone, [], [], [], false), net, recent, Retired(net, gone), recent)
  {
    RetiredMoves(net, gone, false, recent);
    MovesExplain(net, Retired(net, gone), Effect(false, gone, [], [], [], false), recent, recent);
  }

  lemma {:induction false} MinusAll(s: seq<Need>, gone: set<Need>)
    requires forall n :: n in s ==> n in gone
    ensures Minus(s, gone) == []
  {
    if s != [] {
      MinusAll(s[1..], gone);
    }
  }

  lemma TailExplained(net: Frontier, recent: set<Hash>)
    ensures Explains(Effect(false, Elements(net.unemitted) + Elements(net.backlog), [], [], [], false),
                     net, recent, TailDiscarded(net), recent)
  {
    var gone := Elements(net.unemitted) + Elements(net.backlog);
    MinusAll(net.unemitted, gone);
    MinusAll(net.backlog, gone);
    var g := TailDiscarded(net);
    assert g.retained + [] == g.retained && [] + g.unemitted == [] && [] + g.backlog == [];
    NothingSent();
  }

  lemma EmitExplained(net: Frontier, max: nat, recent: set<Hash>)
    requires Tidy(net)
    ensures Explains(Effect(false, {}, [], [], NextBatch(net, max), false), net, recent, Emitted(net, max),
                     recent + Hashes(NextBatch(net, max)))
  {
    EmittedTidy(net, max);
    UnchangedMoves(net, recent);
    hide NextBatch, Hashes, Minus;
    var g := Emitted(net, max);
    assert g.retained == net.retained && g.backlog == net.backlog;
  }

  lemma TurnExplained(w: World, op: Op)
    requires PlanOk(w.plan) && Legal(op) && op.Turn?
    ensures var t := Step(w, op).plan; Explains(EffectOf(w, op), w.plan.net, w.plan.recent, t.net, t.recent)
  {
    hide RunTurn, PlanOk, FrontierMoves, ReadsMove, PersistMoves, KeysMove, AllWorkKept, Explains;
    RunTurnFacts(w.plan, NthId(w.drawn), op.ctx, op.replies);
    MovesExplain(w.plan.net, Step(w, op).plan.net, EffectOf(w, op), w.plan.recent, w.plan.recent);
  }

  lemma ReadExplained(w: World, op: Op)
    requires op.ReadDone?
    ensures var t := Step(w, op).plan; Explains(EffectOf(w, op), w.plan.net, w.plan.recent, t.net, t.recent)
  {
    hide Explains, Retired, FirstMatch;
    if Recovers(w.plan, op) {
      RetireExplained(w.plan.net, {w.plan.recoveryReads[op.op]}, w.plan.recent);
    } else {
      StillExplained(w.plan.net, w.plan.net, false, w.plan.recent);
    }
  }

  lemma ActionExplained(w: World, op: Op)
    requires op.Minor?
    ensures var t := Step(w, op).plan; Explains(EffectOf(w, op), w.plan.net, w.plan.recent, t.net, t.recent)
  {
    hide Explains, Acted;
    ActedKeeps(w.plan, op.action);
    ActedRecent(w.plan, op.action);
    StillExplained(w.plan.net, Step(w, op).plan.net, op.action.BeginTimeoutScan? || op.action.ClearRecent?, w.plan.recent);
  }

  /** Every operation is explained by its effect. */
  lemma StepExplained(w: World, op: Op)
    requires PlanOk(w.plan) && Legal(op)
    ensures var t := Step(w, op).plan; Explains(EffectOf(w, op), w.plan.net, w.plan.recent, t.net, t.recent)
  {
    hide Explains, Acted, OnRead, OnWrite, OnDurability, Probed, Tidy, TailDiscarded, Emitted, NextBatch, Hashes;
    var net, recent := w.plan.net, w.plan.recent;
    if op.Turn? {
      TurnExplained(w, op);
    } else if op.ReadDone? {
      ReadExplained(w, op);
    } else if op.Minor? {
      ActionExplained(w, op);
    } else if op.FinishLane? && w.plan.lanes != [] {
      TailExplained(net, recent);
    } else if op.TakeBatch? && !w.plan.cancelled && op.max != 0 {
      EmitExplained(net, op.max, recent);
    } else if op.Terminalize? || op.Cancel? {
      EmptyExplained(net, recent);
    } else {
      if op.WriteDone? {
        PersistenceFrame(w.plan, op.op, op.written, FenceStale);
      } else if op.FenceDone? {
        PersistenceFrame(w.plan, op.op, WriteStale, op.fenced);
      }
      StillExplained(net, net, false, recent);
    }
  }

  /** What an explained step does to the frontier that was tidy before. */
  lemma KeptNoDup(e: Effect, net: Frontier)
    requires Tidy(net)
    ensures var base := Base(net, e.resets); NoDup(Minus(base.retained, e.gone) + Minus(base.backlog, e.gone))
  {
    EmptyTidy();
    var base := Base(net, e.resets);
    MinusConcat(base.retained, base.backlog, e.gone);
    MinusNoDup(base.retained + base.backlog, e.gone);
  }

  /** A plan at the start of its session. */
  ghost predicate Fresh(w: World) {
    w.plan == NewPlan(w.plan.mail.maxPackets, w.plan.mail.maxBytes, w.plan.maxTimeouts, w.plan.readsCap)
  }

  lemma FreshOk(w: World)
    requires Fresh(w)
    ensures PlanOk(w.plan)
  {
    EmptyTidy();
  }

  // ------------------------------------------------------------------------
  // The backlog holds part of one announced batch.
  // ------------------------------------------------------------------------

  /** The network batch the engine announced last. */
  ghost function LastBatch(w: World, ops: seq<Op>): seq<Need>
    requires AllLegal(ops)
  {
    if ops == [] then []
    else
      var init := ops[..|ops| - 1];
      var e := EffectOf(Run(w, init), ops[|ops| - 1]);
      if e.announced != [] then e.announced else LastBatch(w, init)
  }

  lemma BacklogStep(e: Effect, net: Frontier, recent: set<Hash>, g: Frontier, recent': set<Hash>, batch: seq<Need>)
    requires Explains(e, net, recent, g, recent') && Tidy(net) && Sublist(net.backlog, batch)
    ensures Sublist(g.backlog, if e.announced != [] then e.announced else batch)
  {
    var base := Base(net, e.resets);
    var kept, waiting := Minus(base.retained, e.gone), Minus(base.backlog, e.gone);
    MinusSublist(base.backlog, batch, e.gone);
    KeptNoDup(e, net);
    QueueKeeps(waiting, kept, recent, e.announced);
    var q := Queue(waiting, kept, recent, e.announced);
    assert q[0..] == q;
    assert g.backlog == q[|e.moved|..];
    SublistDrop(q, if e.announced != [] then e.announced else batch, |e.moved|);
  }

  /** In every reachable state what waits for a slot is part of the last announced batch, in its order. */
  lemma {:induction false} BacklogIsOneBatch(w: World, ops: seq<Op>)
    requires Fresh(w) && AllLegal(ops)
    ensures Sublist(Run(w, ops).plan.net.backlog, LastBatch(w, ops))
    ensures |Run(w, ops).plan.net.retained| <= MAX_RETAINED
  {
    FreshOk(w);
    RunOk(w, ops);
    if ops != [] {
      var init, op := ops[..|ops| - 1], ops[|ops| - 1];
      BacklogIsOneBatch(w, init);
      RunOk(w, init);
      hide Explains, EffectOf, Step, Sublist;
      StepExplained(Run(w, init), op);
      var s, t := Run(w, init).plan, Run(w, ops).plan;
      BacklogStep(EffectOf(Run(w, init), op), s.net, s.recent, t.net, t.recent, LastBatch(w, init));
    }
  }

  // ------------------------------------------------------------------------
  // No announced need is lost, and none is invented.
  // ------------------------------------------------------------------------

  function NotRecent(nodes: seq<Need>, recent: set<Hash>): set<Need> {
    set n | n in nodes && n.hash !in recent
  }

  /**
    The needs announced since the last fresh scan and not yet retired or
    discarded; those suppressed as recent when announced do not count.
  */
  ghost function Owed(w: World, ops: seq<Op>): set<Need>
    requires AllLegal(ops)
  {
    if ops == [] then {}
    else
      var init := ops[..|ops| - 1];
      var e := EffectOf(Run(w, init), ops[|ops| - 1]);
      (if e.resets then {} else Owed(w, init)) - e.gone + NotRecent(e.announced, Run(w, init).plan.recent)
  }

  function Tracked(f: Frontier): set<Need> {
    Elements(f.retained) + Elements(f.backlog)
  }

  lemma OwedStep(e: Effect, net: Frontier, recent: set<Hash>, g: Frontier, recent': set<Hash>, n: Need)
    requires Explains(e, net, recent, g, recent') && Tidy(net)
    ensures n in Tracked(g) <==>
              || (n in Tracked(Base(net, e.resets)) && n !in e.gone)
              || n in NotRecent(e.announced, recent)
  {
    var base := Base(net, e.resets);
    var kept, waiting := Minus(base.retained, e.gone), Minus(base.backlog, e.gone);
    KeptNoDup(e, net);
    QueueKeeps(waiting, kept, recent, e.announced);
    MinusMember(base.retained, e.gone, n);
    MinusMember(base.backlog, e.gone, n);
    var q := Queue(waiting, kept, recent, e.announced);
    assert q == q[..|waiting|] + q[|waiting|..];
    assert n in q <==> n in e.moved || n in g.backlog by {
      assert q == e.moved + g.backlog;
    }
  }

  /** In every reachable state the frontier is exactly what is owed. */
  lemma {:induction false} FrontierIsOwed(w: World, ops: seq<Op>)
    requires Fresh(w) && AllLegal(ops)
    ensures Tracked(Run(w, ops).plan.net) == Owed(w, ops)
  {
    FreshOk(w);
    if ops != [] {
      var init, op := ops[..|ops| - 1], ops[|ops| - 1];
      FrontierIsOwed(w, init);
      RunOk(w, init);
      hide Explains, EffectOf, Step, Tidy;
      StepExplained(Run(w, init), op);
      var e, s, t := EffectOf(Run(w, init), op), Run(w, init).plan, Run(w, ops).plan;
      forall n
        ensures n in Tracked(t.net) <==> n in Owed(w, ops)
      {
        OwedStep(e, s.net, s.recent, t.net, t.recent, n);
      }
    }
  }

  // ------------------------------------------------------------------------
  // Between two clears of the recent set no need is sent twice.
  // ------------------------------------------------------------------------

  /** The needs normal batches emitted since the recent set was last cleared. */
  ghost function SentSinceClear(w: World, ops: seq<Op>): seq<Need>
    requires AllLegal(ops)
  {
    if ops == [] then []
    else
      var init := ops[..|ops| - 1];
      var e := EffectOf(Run(w, init), ops[|ops| - 1]);
      if e.clears then [] else SentSinceClear(w, init) + e.sent
  }

  /** A sent need is remembered as recent and waits nowhere to be sent again. */
  ghost predicate Settled(sent: seq<Need>, f: Frontier, recent: set<Hash>) {
    && NoDup(sent)
    && (forall n :: n in sent ==> n.hash in recent && n !in f.unemitted && n !in f.backlog)
  }

  /** Whatever starts waiting in a step was waiting before or was announced with a hash not recent. */
  lemma NewlyWaiting(e: Effect, net: Frontier, recent: set<Hash>, g: Frontier, recent': set<Hash>, n: Need)
    requires Explains(e, net, recent, g, recent') && Tidy(net)
    requires n in g.backlog || n in g.unemitted || n in e.sent
    ensures n in net.backlog || n in net.unemitted || n.hash !in recent
    ensures n in e.sent && e.moved == [] ==> n in net.unemitted
  {
    var base := Base(net, e.resets);
    var kept, waiting := Minus(base.retained, e.gone), Minus(base.backlog, e.gone);
    KeptNoDup(e, net);
    QueueKeeps(waiting, kept, recent, e.announced);
    MinusMember(base.unemitted, e.gone, n);
    MinusMember(base.backlog, e.gone, n);
    var q := Queue(waiting, kept, recent, e.announced);
    assert q == q[..|waiting|] + q[|waiting|..];
    assert n in e.sent + g.unemitted ==> n in Minus(base.unemitted, e.gone) || n in e.moved;
    assert n in e.moved || n in g.backlog ==> n in q;
  }

  lemma SentStep(e: Effect, net: Frontier, recent: set<Hash>, g: Frontier, recent': set<Hash>, sent: seq<Need>)
    requires Explains(e, net, recent, g, recent') && Tidy(net) && Tidy(g)
    requires Settled(sent, net, recent)
    ensures Settled(if e.clears then [] else sent + e.sent, g, recent')
  {
    if !e.clears {
      SentApart(e, net, recent, g, recent');
      hide Explains, Tidy;
      forall n | n in sent
        ensures n !in g.unemitted && n !in g.backlog && n !in e.sent
      {
        if n in g.backlog || n in g.unemitted || n in e.sent {
          NewlyWaiting(e, net, recent, g, recent', n);
        }
      }
      NoDupConcat(sent, e.sent);
    }
  }

  /** A batch has no duplicates and leaves nothing of itself in the queues. */
  lemma SentApart(e: Effect, net: Frontier, recent: set<Hash>, g: Frontier, recent': set<Hash>)
    requires Explains(e, net, recent, g, recent') && Tidy(net) && Tidy(g) && !e.clears
    ensures recent <= recent'
    ensures NoDup(e.sent)
    ensures forall n :: n in e.sent ==> n.hash in recent' && n !in g.unemitted && n !in g.backlog
  {
    var base := Base(net, e.resets);
    EmptyTidy();
    if e.sent != [] {
      var u := Minus(base.unemitted, e.gone);
      assert e.sent + g.unemitted == u;
      NoDupConcat(base.retained, base.backlog);
      SublistNoDup(base.unemitted, base.retained);
      MinusNoDup(base.unemitted, e.gone);
      NoDupConcat(e.sent, g.unemitted);
      assert g.retained == Minus(base.retained, e.gone);
      NoDupConcat(g.retained, g.backlog);
      SublistMinus(base.unemitted, base.retained, e.gone);
      forall n | n in e.sent
        ensures n !in g.backlog
      {
        assert n in u;
        SublistMember(u, g.retained, n);
      }
    }
  }

  /** Between two clears of the recent set, normal batches never emit the same exact need twice. */
  lemma {:induction false} NeverSentTwice(w: World, ops: seq<Op>)
    requires Fresh(w) && AllLegal(ops)
    ensures NoDup(SentSinceClear(w, ops))
    ensures Settled(SentSinceClear(w, ops), Run(w, ops).plan.net, Run(w, ops).plan.recent)
  {
    FreshOk(w);
    if ops != [] {
      var init, op := ops[..|ops| - 1], ops[|ops| - 1];
      NeverSentTwice(w, init);
      RunOk(w, init);
      RunOk(w, ops);
      hide Explains, EffectOf, Step, Tidy, Settled;
      StepExplained(Run(w, init), op);
      var s, t := Run(w, init).plan, Run(w, ops).plan;
      SentStep(EffectOf(Run(w, init), op), s.net, s.recent, t.net, t.recent, SentSinceClear(w, init));
      SettledNoDup(SentSinceClear(w, ops), t.net, t.recent);
    }
  }

  lemma SettledNoDup(sent: seq<Need>, f: Frontier, recent: set<Hash>)
    requires Settled(sent, f, recent)
    ensures NoDup(sent)
  {
  }

  // ------------------------------------------------------------------------
  // Batches follow dispatch order.
  // ------------------------------------------------------------------------

  /** `a` is `b`, in order, with nothing left out but entries of `gone`. */
  ghost predicate Thinned(a: seq<Need>, b: seq<Need>, gone: set<Need>)
    decreases |b|
  {
    if b == [] then a == []
    else (a != [] && a[0] == b[0] && Thinned(a[1..], b[1..], gone)) || (b[0] in gone && Thinned(a, b[1..], gone))
  }

  lemma {:induction false} ThinnedRefl(a: seq<Need>, gone: set<Need>)
    ensures Thinned(a, a, gone)
  {
    if a != [] {
      ThinnedRefl(a[1..], gone);
    }
  }

  lemma {:induction false} ThinnedAppend(a: seq<Need>, b: seq<Need>, gone: set<Need>, c: seq<Need>)
    requires Thinned(a, b, gone)
    ensures Thinned(a + c, b + c, gone)
    decreases |b|
  {
    if b == [] {
      assert a + c == c && b + c == c;
      ThinnedRefl(c, gone);
    } else {
      assert (b + c)[1..] == b[1..] + c && (b + c)[0] == b[0];
      if a != [] && a[0] == b[0] && Thinned(a[1..], b[1..], gone) {
        ThinnedAppend(a[1..], b[1..], gone, c);
        assert (a + c)[1..] == a[1..] + c;
      } else {
        ThinnedAppend(a, b[1..], gone, c);
      }
    }
  }

  /** Removing more entries from the tail, once they are gone too. */
  lemma {:induction false} ThinnedMore(e: seq<Need>, u: seq<Need>, b: seq<Need>, gone: set<Need>, more: set<Need>)
    requires Thinned(e + u, b, gone)
    ensures Thinned(e + Minus(u, more), b, gone + more)
    decreases |b|
  {
    if b != [] {
      var a := e + u;
      if a != [] && a[0] == b[0] && Thinned(a[1..], b[1..], gone) {
        if e != [] {
          assert a[1..] == e[1..] + u;
          ThinnedMore(e[1..], u, b[1..], gone, more);
          assert (e + Minus(u, more))[1..] == e[1..] + Minus(u, more);
        } else {
          assert a == u && a[1..] == [] + u[1..];
          ThinnedMore([], u[1..], b[1..], gone, more);
          assert e + Minus(u, more) == Minus(u, more) && [] + Minus(u[1..], more) == Minus(u[1..], more);
        }
      } else {
        ThinnedMore(e, u, b[1..], gone, more);
      }
    }
  }

  /** The dispatches, emissions and removals since the frontier was last dropped. */
  datatype Epoch = Epoch(dispatched: seq<Need>, emitted: seq<Need>, gone: set<Need>)

  ghost function EpochOf(w: World, ops: seq<Op>): Epoch
    requires AllLegal(ops)
  {
    if ops == [] then Epoch([], [], {})
    else
      var init := ops[..|ops| - 1];
      EpochNext(EpochOf(w, init), EffectOf(Run(w, init), ops[|ops| - 1]))
  }

  function EpochNext(p: Epoch, e: Effect): Epoch {
    var q := if e.resets then Epoch([], [], {}) else p;
    Epoch(q.dispatched + e.moved, q.emitted + e.sent, q.gone + e.gone)
  }

  ghost predicate InOrder(p: Epoch, f: Frontier) {
    Thinned(p.emitted + f.unemitted, p.dispatched, p.gone)
  }

  lemma EpochStep(e: Effect, net: Frontier, recent: set<Hash>, g: Frontier, recent': set<Hash>, p: Epoch)
    requires Explains(e, net, recent, g, recent') && InOrder(p, net)
    ensures InOrder(EpochNext(p, e), g)
  {
    var base := Base(net, e.resets);
    var q := if e.resets then Epoch([], [], {}) else p;
    assert Thinned(q.emitted + base.unemitted, q.dispatched, q.gone);
    hide Thinned, Minus, Queue, Hashes, Base;
    ThinnedMore(q.emitted, base.unemitted, q.dispatched, q.gone, e.gone);
    var u := Minus(base.unemitted, e.gone);
    ThinnedAppend(q.emitted + u, q.dispatched, q.gone + e.gone, e.moved);
    assert q.emitted + u + e.moved == q.emitted + (u + e.moved);
    assert q.emitted + e.sent + g.unemitted == q.emitted + (e.sent + g.unemitted);
  }

  /**
    Within an epoch the normal batches, one after the other and followed by
    what is still to be sent, are the dispatched needs in dispatch order with
    only retired or discarded needs missing.
  */
  lemma {:induction false} BatchesFollowDispatch(w: World, ops: seq<Op>)
    requires Fresh(w) && AllLegal(ops)
    ensures InOrder(EpochOf(w, ops), Run(w, ops).plan.net)
  {
    FreshOk(w);
    if ops != [] {
      var init, op := ops[..|ops| - 1], ops[|ops| - 1];
      BatchesFollowDispatch(w, init);
      RunOk(w, init);
      hide Explains, EffectOf, Step, Tidy, InOrder, EpochNext;
      StepExplained(Run(w, init), op);
      var s, t := Run(w, init).plan, Run(w, ops).plan;
      EpochStep(EffectOf(Run(w, init), op), s.net, s.recent, t.net, t.recent, EpochOf(w, init));
    }
  }
}

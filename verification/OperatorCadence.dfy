/** How often and in which period CQ is called. */
module OperatorCadence {
  import opened Base
  import opened Protocol
  import opened SlotClock
  import opened OperatorTypes
  import opened OperatorSteps
  import opened OperatorProofs
  import opened OperatorRuns

  predicate NewCycle(s: Operator, e: Event) { e.Cycle? && s.armed && e.key != s.lastCycle }

  /** The step calls CQ. */
  predicate CallsCq(s: Operator, s': Operator) { s.hist.cqs < s'.hist.cqs }

  predicate Rearms(s: Operator, e: Event) { e == Arm(true) && !s.armed }

  predicate Interrupts(e: Event) { e.Abort? || e.Halt? || e.Arm? }

  /** A CQ goes out only on a new armed cycle, with no contact, the wait run
      down, in the CQ period, and starts the wait again. */
  predicate CqCall(s: Operator, s': Operator, e: Event) {
    && s'.hist.cqs == s.hist.cqs + 1 && NewCycle(s, e)
    && s.active.None? && s'.active.None? && s.cqWait <= 0
    && s'.cqPeriod == Some(PeriodAt(e.now.wall)) && s'.cqWait == s.station.cqRepeat
    && s'.lastTx == Some(CqMessage(s.station.me, s.station.grid4))
    && s'.queue == [TxItem(s'.lastTx.value, Snap(Snap(s'.defaultHz)), PeriodAt(e.now.wall), s'.epoch)]
  }

  predicate CadenceStep(s: Operator, s': Operator, e: Event) {
    && (s'.hist.cqs == s.hist.cqs || CqCall(s, s', e))
    && (s.cqPeriod.Some? && !Rearms(s, e) ==> s'.cqPeriod == s.cqPeriod)
    && (s.active.None? && s'.hist.begun == s.hist.begun && !Interrupts(e) && s'.hist.cqs == s.hist.cqs ==>
          s'.active.None? && s'.cqWait >= s.cqWait - (if NewCycle(s, e) then 1 else 0))
  }

  lemma TickCqCadence(s: Operator, slot: int, now: Clock)
    requires Inv(s) && s.active.None? && s.cqPeriod.Some? && slot == PeriodAt(now.wall)
    ensures var s' := TickCq(s, slot, now);
            && s'.cqPeriod == s.cqPeriod && s'.hist.begun == s.hist.begun && s'.active.None?
            && (if s.cqWait > 0 then s'.cqWait == s.cqWait - 1 && s'.hist.cqs == s.hist.cqs
                else if s.cqPeriod == Some(slot) then
                  && s'.hist.cqs == s.hist.cqs + 1 && s'.cqWait == s.station.cqRepeat
                  && s'.lastTx == Some(CqMessage(s.station.me, s.station.grid4))
                  && s'.queue == [TxItem(s'.lastTx.value, Snap(Snap(s'.defaultHz)), slot, s'.epoch)]
                else s'.cqWait == s.cqWait && s'.hist.cqs == s.hist.cqs)
  {}

  lemma CycleCadence(s: Operator, e: Event)
    requires Inv(s) && e.Cycle?
    ensures CadenceStep(s, OnCycle(s, e.key, e.now), e)
  {
    if s.armed {
      OnCycleCases(s, e.key, e.now);
      FlushedCadence(s, e);
      var s1 := FlushOnNewCycle(s, e.key, e.now).0;
      if OwnTick(s, e.now) {
        ActiveCadence(s, s1, e);
      } else if s1.active.None? && e.key != s.lastCycle {
        TickCadence(s, s1, e);
      }
    }
  }

  lemma FlushedCadence(s: Operator, e: Event)
    requires Inv(s) && e.Cycle? && s.armed
    ensures var (s1, flushed) := FlushOnNewCycle(s, e.key, e.now);
            && Inv(s1) && CadenceStep(s, s1, e) && s1.cqPeriod == s.cqPeriod && s1.hist.cqs == s.hist.cqs
            && s1.station == s.station
            && (s.active.Some? ==> s1.active == s.active && s1.phase == s.phase && s1.hist == s.hist && !flushed)
            && (s1.active.None? ==> s.active.None? && s1.hist == s.hist && s1.cqWait == s.cqWait)
            && (s.active.None? && s1.active.Some? ==> flushed)
  {
    var s1 := FlushOnNewCycle(s, e.key, e.now).0;
    FlushedMoves(s, e.key, e.now);
    FlushedIsStill(s, e.key, e.now);
    StillCadence(s, s1, e);
  }

  lemma FlushedIsStill(s: Operator, key: CycleTag, now: Clock)
    requires Inv(s)
    ensures var s1 := FlushOnNewCycle(s, key, now).0;
            CqStill(s, s1.(lastCycle := s.lastCycle)) && s1.station == s.station
  {
    FlushOnNewCycleGood(s, key, now);
  }

  lemma StillCadence(s: Operator, s1: Operator, e: Event)
    requires Inv(s) && Inv(s1) && ContactMove(s, s1) && CqStill(s, s1.(lastCycle := s.lastCycle))
    ensures CadenceStep(s, s1, e)
  {}

  lemma ActiveCadence(s: Operator, s1: Operator, e: Event)
    requires Inv(s1) && e.Cycle? && s.active.Some? && s1.active.Some?
    requires s1.cqPeriod == s.cqPeriod && s1.hist.cqs == s.hist.cqs
    ensures CadenceStep(s, ActiveCycle(s1, e.now), e)
  {
    ActiveCycleTicks(s1, e.now);
  }

  lemma TickCadence(s: Operator, s1: Operator, e: Event)
    requires Inv(s1) && NewCycle(s, e) && s.active.None? && s1.active.None?
    requires s1.cqPeriod == s.cqPeriod && s1.hist == s.hist && s1.cqWait == s.cqWait && s1.station == s.station
    ensures var slot := PeriodAt(e.now.wall); CadenceStep(s, TickCq(WithCqPeriod(s1, slot), slot, e.now), e)
  {
    var slot := PeriodAt(e.now.wall);
    var s2 := WithCqPeriod(s1, slot);
    assert Inv(s2) by {
      forall i | 0 <= i < |s2.queue| ensures ItemOk(s2, s2.queue[i]) { assert ItemOk(s1, s1.queue[i]); }
    }
    TickCqCadence(s2, slot, e.now);
  }

  lemma DecodeCadence(s: Operator, e: Event)
    requires Inv(s) && e.Decode?
    ensures CadenceStep(s, OnDecode(s, e.r, e.now), e)
  {
    if MessageTriplet(e.r.message).Fields? {
      var s' := OnDecode(s, e.r, e.now);
      OnDecodeHeard(s, e.r, MessageTriplet(e.r.message).value, e.now);
      assert CqStill(s, s') && ContactMove(s, s');
    }
  }

  lemma EngageCadence(s: Operator, e: Event)
    requires Inv(s) && e.Engage?
    ensures CadenceStep(s, EngageCall(s, e.call, e.hz, e.rxReport, e.rxSnr, e.now), e)
  {
    var s' := EngageCall(s, e.call, e.hz, e.rxReport, e.rxSnr, e.now);
    EngageMoves(s, e.call, e.hz, e.rxReport, e.rxSnr, e.now);
    assert CqStill(s, s') && ContactMove(s, s');
  }

  lemma CadenceKeeps(y: System, e: Event)
    requires SystemInv(y)
    ensures CadenceStep(y.op, Step(y, e).op, e)
  {
    match e {
      case Decode(_, _) => DecodeCadence(y.op, e);
      case Cycle(_, _) => CycleCadence(y.op, e);
      case Engage(_, _, _, _, _) => EngageCadence(y.op, e);
      case _ => OtherCadence(y, e);
    }
  }

  lemma OtherCadence(y: System, e: Event)
    requires !e.Decode? && !e.Cycle? && !e.Engage? && ContactOk(y.op)
    ensures CadenceStep(y.op, Step(y, e).op, e)
  {}

  predicate Paced(ys: seq<System>, es: seq<Event>) {
    && |ys| == |es| + 1
    && (forall k :: 0 <= k < |es| ==> CadenceStep(ys[k].op, ys[k + 1].op, es[k]))
  }

  lemma RunIsPaced(ys: seq<System>, es: seq<Event>)
    requires IsRun(ys, es)
    ensures Paced(ys, es)
  {
    forall k | 0 <= k < |es| ensures CadenceStep(ys[k].op, ys[k + 1].op, es[k]) {
      RunInv(ys, es, k);
      CadenceKeeps(ys[k], es[k]);
    }
  }

  lemma {:induction false} PeriodStays(ys: seq<System>, es: seq<Event>, i: nat, j: nat)
    requires Paced(ys, es) && i <= j < |ys| && ys[i].op.cqPeriod.Some?
    requires forall k :: i <= k < j ==> !Rearms(ys[k].op, es[k])
    ensures ys[j].op.cqPeriod == ys[i].op.cqPeriod
    decreases j
  {
    if i < j { PeriodStays(ys, es, i, j - 1); assert CadenceStep(ys[j - 1].op, ys[j].op, es[j - 1]); }
  }

  /** All CQs between two re-armings go out in slots of one parity, and each is
      queued for that period. */
  lemma OneCqParity(ys: seq<System>, es: seq<Event>, i: nat, j: nat)
    requires IsRun(ys, es) && i <= j < |es|
    requires CallsCq(ys[i].op, ys[i + 1].op) && CallsCq(ys[j].op, ys[j + 1].op)
    requires forall k :: i < k < j ==> !Rearms(ys[k].op, es[k])
    ensures es[i].Cycle? && es[j].Cycle? && PeriodAt(es[i].now.wall) == PeriodAt(es[j].now.wall)
    ensures |ys[j + 1].op.queue| == 1 && ys[j + 1].op.queue[0].period == PeriodAt(es[i].now.wall)
  {
    RunIsPaced(ys, es);
    assert CqCall(ys[i].op, ys[i + 1].op, es[i]);
    assert CqCall(ys[j].op, ys[j + 1].op, es[j]);
    if i < j {
      PeriodStays(ys, es, i + 1, j);
      assert CadenceStep(ys[j].op, ys[j + 1].op, es[j]);
    }
  }

  /** New cycles among events i up to j. */
  function NewCycles(ys: seq<System>, es: seq<Event>, i: nat, j: nat): (c: nat)
    requires |ys| == |es| + 1 && i <= j <= |es|
    decreases j
  {
    if i == j then 0 else NewCycles(ys, es, i, j - 1) + (if NewCycle(ys[j - 1].op, es[j - 1]) then 1 else 0)
  }

  lemma {:induction false} WaitRunsDown(ys: seq<System>, es: seq<Event>, i: nat, j: nat)
    requires Paced(ys, es) && i <= j <= |es| && ys[i].op.active.None?
    requires forall k :: i <= k < j ==>
               && ys[k + 1].op.hist.begun == ys[k].op.hist.begun && !Interrupts(es[k])
               && !CallsCq(ys[k].op, ys[k + 1].op)
    ensures ys[j].op.active.None? && ys[j].op.cqWait >= ys[i].op.cqWait - NewCycles(ys, es, i, j)
    decreases j
  {
    if i < j {
      WaitRunsDown(ys, es, i, j - 1);
      assert CadenceStep(ys[j - 1].op, ys[j].op, es[j - 1]);
    }
  }

  /** Two successive CQs with no contact begun and no abort, halt or arming in
      between are at least w + 1 new cycles apart, w being the wait set when the
      first went out. */
  lemma CqsAreSpaced(ys: seq<System>, es: seq<Event>, i: nat, j: nat)
    requires IsRun(ys, es) && i < j < |es|
    requires CallsCq(ys[i].op, ys[i + 1].op) && CallsCq(ys[j].op, ys[j + 1].op)
    requires forall k :: i < k < j ==>
               && ys[k + 1].op.hist.begun == ys[k].op.hist.begun && !Interrupts(es[k])
               && !CallsCq(ys[k].op, ys[k + 1].op)
    ensures NewCycles(ys, es, i + 1, j + 1) >= ys[i].op.station.cqRepeat + 1
  {
    RunIsPaced(ys, es);
    assert CqCall(ys[i].op, ys[i + 1].op, es[i]);
    assert CqCall(ys[j].op, ys[j + 1].op, es[j]);
    WaitRunsDown(ys, es, i + 1, j);
  }

  // ---------------------------------------------------- an idle channel

  datatype Tick = Tick(key: CycleTag, now: Clock)

  function RunCycles(s: Operator, ts: seq<Tick>): Operator {
    if ts == [] then s
    else
      var last := ts[|ts| - 1];
      OnCycle(RunCycles(s, ts[..|ts| - 1]), last.key, last.now)
  }

  predicate IdleChannel(s: Operator) {
    s.armed && s.active.None? && s.cqBuf == [] && s.inBuf == [] && s.cqPeriod.Some?
  }

  /** Key of the cycle before tick k. */
  function KeyBefore(ts: seq<Tick>, s: Operator, k: nat): CycleTag
    requires k <= |ts|
  {
    if k == 0 then s.lastCycle else ts[k - 1].key
  }

  predicate Successive(ts: seq<Tick>, s: Operator, k: nat)
    requires k < |ts| && s.cqPeriod.Some?
  {
    PeriodAt(ts[k].now.wall) == (s.cqPeriod.value + 1 + k) % 2 && ts[k].key != KeyBefore(ts, s, k)
  }

  /** Cycle calls in successive slots, the first in the slot after a CQ slot. */
  predicate Alternating(ts: seq<Tick>, s: Operator) {
    s.cqPeriod.Some? && (forall k :: 0 <= k < |ts| ==> Successive(ts, s, k))
  }

  lemma IdleCycle(s: Operator, key: CycleTag, now: Clock)
    requires IdleChannel(s) && key != s.lastCycle
    ensures var s' := OnCycle(s, key, now);
            && IdleChannel(s') && s'.lastCycle == key && s'.cqPeriod == s.cqPeriod && s'.station == s.station
            && (if s.cqWait > 0 then s'.cqWait == s.cqWait - 1 && s'.hist.cqs == s.hist.cqs
                else if s.cqPeriod == Some(PeriodAt(now.wall)) then
                  s'.cqWait == s.station.cqRepeat && s'.hist.cqs == s.hist.cqs + 1
                else s'.cqWait == s.cqWait && s'.hist.cqs == s.hist.cqs)
  {
    assert Prune(s.cqBuf, now.wall) == [] && Prune(s.inBuf, now.wall) == [];
    var s1 := FlushOnNewCycle(s, key, now).0;
    assert s1 == s.(lastCycle := key);
  }

  /** Cycles from one CQ to the next: the wait and one more, made even. */
  function Gap(w: nat): nat { if w % 2 == 1 then w + 1 else w + 2 }

  /** State s' lies n idle cycles after s, in whose last slot a CQ went out. */
  predicate IdleAfter(s: Operator, s': Operator, n: nat, w: nat) {
    && IdleChannel(s) && IdleChannel(s') && s'.cqPeriod == s.cqPeriod && s'.station == s.station
    && s'.hist.cqs == s.hist.cqs + (if n == Gap(w) then 1 else 0)
    && s'.cqWait == (if n == Gap(w) then w else if n <= w then w - n else 0)
  }

  lemma IdleStep(s: Operator, m: Operator, key: CycleTag, now: Clock, n: nat, w: nat)
    requires IdleAfter(s, m, n, w) && n < Gap(w) && key != m.lastCycle && s.station.cqRepeat == w
    requires s.cqPeriod.value == 0 || s.cqPeriod.value == 1
    requires PeriodAt(now.wall) == (s.cqPeriod.value + 1 + n) % 2
    ensures IdleAfter(s, OnCycle(m, key, now), n + 1, w) && OnCycle(m, key, now).lastCycle == key
  {
    IdleCycle(m, key, now);
    assert m.cqPeriod == Some(PeriodAt(now.wall)) <==> n % 2 == 1;
  }

  lemma {:induction false} IdleWait(s: Operator, ts: seq<Tick>, w: nat)
    requires IdleChannel(s) && Alternating(ts, s) && |ts| <= Gap(w)
    requires s.station.cqRepeat == w && s.cqWait == w && (s.cqPeriod.value == 0 || s.cqPeriod.value == 1)
    ensures IdleAfter(s, RunCycles(s, ts), |ts|, w)
    ensures RunCycles(s, ts).lastCycle == KeyBefore(ts, s, |ts|)
  {
    if ts != [] {
      var n := |ts| - 1;
      var front, last := ts[..n], ts[n];
      AlternatingPrefix(ts, s, n);
      IdleWait(s, front, w);
      assert Successive(ts, s, n);
      assert KeyBefore(front, s, n) == KeyBefore(ts, s, n);
      IdleStep(s, RunCycles(s, front), last.key, last.now, n, w);
      assert RunCycles(s, ts) == OnCycle(RunCycles(s, front), last.key, last.now);
    }
  }

  lemma AlternatingPrefix(ts: seq<Tick>, s: Operator, n: nat)
    requires Alternating(ts, s) && n <= |ts|
    ensures Alternating(ts[..n], s)
  {
    forall k | 0 <= k < n ensures Successive(ts[..n], s, k) {
      assert Successive(ts, s, k);
      assert KeyBefore(ts[..n], s, k) == KeyBefore(ts, s, k);
    }
  }

  /** With alternating slots and an idle channel the next CQ goes out after
      exactly w + 1 cycles when the wait w is odd, as every wait the normaliser
      returns is, and after w + 2 when it is even; none goes out before. */
  lemma IdleCadence(s: Operator, ts: seq<Tick>, w: nat, n: nat)
    requires IdleChannel(s) && Alternating(ts, s) && n <= |ts| == Gap(w)
    requires s.station.cqRepeat == w && s.cqWait == w && (s.cqPeriod.value == 0 || s.cqPeriod.value == 1)
    ensures RunCycles(s, ts[..n]).hist.cqs == s.hist.cqs + (if n == Gap(w) then 1 else 0)
    ensures RunCycles(s, ts).cqWait == w && IdleChannel(RunCycles(s, ts))
    ensures Gap(w) == w + 1 <==> w % 2 == 1
  {
    AlternatingPrefix(ts, s, n);
    IdleWait(s, ts[..n], w);
    IdleWait(s, ts, w);
  }
}

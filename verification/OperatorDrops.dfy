/** When a contact may be dropped: neither logged nor given up. */
module OperatorDrops {
  import opened Base
  import opened Protocol
  import opened SlotClock
  import opened OperatorTypes
  import opened OperatorSteps
  import opened OperatorProofs
  import opened OperatorRuns

  predicate NoDrop(s: Operator, s': Operator) { s'.hist.dropped == s.hist.dropped }

  lemma AnswersDropNone(s: Operator, call: string, grid: string, hz: real, rx: string, snr: int, cycle: CycleTag,
      skip: bool, now: Clock)
    ensures NoDrop(s, AnswerCq(s, call, grid, hz, snr, cycle, now))
    ensures NoDrop(s, AnswerIncoming(s, call, grid, hz, rx, snr, cycle, skip, now))
  {}

  lemma FlushesDropNone(s: Operator, now: Clock)
    ensures NoDrop(s, FlushIncoming(s, now).0) && NoDrop(s, FlushCq(s, now).0)
  {
    CallerFlushDropsNone(s, now);
    CqFlushDropsNone(s, now);
  }

  lemma CallerFlushDropsNone(s: Operator, now: Clock)
    ensures NoDrop(s, FlushIncoming(s, now).0)
  {
    var best := PickBest(Prune(s.inBuf, now.wall));
    if best.Some? {
      var b := best.value;
      AnswersDropNone(s.(inBuf := []), b.call, b.grid, b.audioHz, "", b.snr, b.cycle, true, now);
    }
  }

  lemma CqFlushDropsNone(s: Operator, now: Clock)
    ensures NoDrop(s, FlushCq(s, now).0)
  {
    var buf := Prune(s.cqBuf, now.wall);
    var best := PickBest(Eligible(buf, s.cooldown, now.mono));
    if best.Some? {
      var b, s1 := best.value, s.(cqBuf := [], cooldown := DropExpired(s.cooldown, KeysOf(buf), now.mono));
      AnswersDropNone(s1, b.call, b.grid, b.audioHz, "", b.snr, b.cycle, true, now);
    }
  }

  lemma CountedDropsNone(s: Operator, now: Clock)
    requires s.active.Some?
    ensures NoDrop(s, ActiveCycle(s, now))
  {
    ActiveCycleCases(s, now);
    FlushesDropNone(Abandoned(Counted(s), now), now);
  }

  lemma CyclesDropNone(s: Operator, key: CycleTag, now: Clock)
    ensures NoDrop(s, OnCycle(s, key, now))
  {
    if s.armed {
      OnCycleCases(s, key, now);
      FlushesDropNone(s, now);
      var s1 := FlushOnNewCycle(s, key, now).0;
      assert NoDrop(s, s1);
      if s1.active.Some? { CountedDropsNone(s1, now); } else { CqTicksDropNone(s1, PeriodAt(now.wall), now); }
    }
  }

  lemma CqTicksDropNone(s: Operator, slot: int, now: Clock)
    ensures NoDrop(s, TickCq(WithCqPeriod(s, slot), slot, now))
  {}

  lemma ExchangeDropsNone(s: Operator, t: Triplet, r: Report, now: Clock)
    requires s.active.Some?
    ensures NoDrop(s, HandleActive(s, t, r, now).0)
  {}

  lemma CallersDropNone(s: Operator, third: string, r: Report, call: string, now: Clock)
    ensures NoDrop(s, ProcessIncoming(s, third, r, call, now).0)
  {
    var (grid, km) := ResolveGridDist(s, r, call, third);
    KnownCallersDropNone(NoteIntel(s, call, grid, r.snr, km), third, r, call, grid, km, now);
  }

  lemma KnownCallersDropNone(s: Operator, third: string, r: Report, call: string, grid: string, km: Option<real>,
      now: Clock)
    ensures NoDrop(s, AnswerCaller(s, third, r, call, grid, km, now).0)
  {
    if IsReport(third) && !IsRReport(third) {
      AnswersDropNone(s, call, grid, r.audioHz, third, r.snr, r.cycle, false, now);
    } else if IsGridToken(third) || grid != "" {
      var g := if grid != "" then grid else third;
      AnswersDropNone(s, call, g, r.audioHz, "", r.snr, r.cycle, PrefersFastReport(s) && Grid4Upper(g) != "", now);
    }
  }

  lemma CqsDropNone(s: Operator, t: Triplet, r: Report, now: Clock)
    ensures NoDrop(s, MaybeAnswerCq(s, t, r, now))
  {
    var s0 := AskCooldown(s, t.callB, now);
    var (grid, km) := ResolveGridDist(s0, r, t.callB, t.third);
    var s1 := NoteIntel(s0, t.callB, grid, r.snr, km);
    AnswersDropNone(s1, t.callB, grid, r.audioHz, "", r.snr, r.cycle, false, now);
  }

  lemma UnclaimedDropsNone(s: Operator, t: Triplet, r: Report, now: Clock)
    ensures NoDrop(s, HandleUnclaimed(s, t, r, now))
  {
    CqsDropNone(s, t, r, now);
    CallersDropNone(s, t.third, r, t.callA, now);
  }

  /** A caller other than the partner displaces a stuck contact. */
  predicate Displaces(s: Operator, incoming: string, snr: int) {
    && s.active.Some? && s.active.value.remote != incoming && s.station.pro.enabled && StuckActive(s)
    && ShouldPreempt(s, incoming, snr)
  }

  lemma PreemptDrops(s: Operator, t: Triplet, r: Report, incoming: string, now: Clock)
    ensures PreemptOrBuffer(s, t, r, incoming, now).0.hist.dropped
         == s.hist.dropped + if Displaces(s, incoming, r.snr) then 1 else 0
  {
    if ShouldPreempt(s, incoming, r.snr) {
      CallersDropNone(s, t.third, r, incoming, now);
      CallersDropNone(DropActive(s), t.third, r, incoming, now);
    }
  }

  /** The decode is a call of another station that displaces the contact. */
  predicate DisplacedBy(s: Operator, t: Triplet, r: Report) {
    DetectIncoming(s, t).Some? && Displaces(s, DetectIncoming(s, t).value, r.snr)
  }

  lemma OthersDrop(s: Operator, t: Triplet, r: Report, now: Clock)
    ensures HandleOther(s, t, r, now).hist.dropped == s.hist.dropped + if DisplacedBy(s, t, r) then 1 else 0
  {
    var incoming := DetectIncoming(s, t);
    if incoming.None? {
      UnclaimedDropsNone(s, t, r, now);
    } else {
      PreemptDrops(s, t, r, incoming.value, now);
      UnclaimedDropsNone(PreemptOrBuffer(s, t, r, incoming.value, now).0, t, r, now);
    }
  }

  /** The decode reaches the rules for callers: armed, fresh, no echo and no part
      of the exchange in progress. */
  predicate ReachesCallers(s: Operator, t: Triplet, r: Report, now: Clock) {
    && s.armed && (r.cycle.NoCycle? || Fresh(r.cycle, now.wall)) && !IgnoresMeFirst(s, t)
    && (s.active.Some? ==> !HandleActive(s, t, r, now).1)
  }

  lemma HandedOn(s: Operator, t: Triplet, r: Report, now: Clock)
    requires s.active.Some?
    ensures !HandleActive(s, t, r, now).1 ==> HandleActive(s, t, r, now).0 == s
  {}

  /** A decode drops the contact in progress exactly when it reaches the rules for
      callers and is the call of another station that displaces a stuck contact. */
  lemma DecodesDropExactly(s: Operator, r: Report, now: Clock)
    requires ContactOk(s)
    ensures OnDecode(s, r, now).hist.dropped == s.hist.dropped +
              if MessageTriplet(r.message).Fields? && s.active.Some?
                 && ReachesCallers(s, MessageTriplet(r.message).value, r, now)
                 && DisplacedBy(s, MessageTriplet(r.message).value, r) then 1 else 0
  {
    if MessageTriplet(r.message).Fields? && s.armed && (r.cycle.NoCycle? || Fresh(r.cycle, now.wall)) {
      var t := MessageTriplet(r.message).value;
      var s1 := AdoptCqHz(s, t, r);
      OthersDrop(s1, t, r, now);
      if s.active.Some? {
        assert s1 == s;
        HandedOn(s, t, r, now);
        ExchangeDropsNone(s, t, r, now);
      }
    }
  }

  /** The event takes the contact away from the operator. */
  predicate TakesAway(s: Operator, e: Event) {
    || e.Abort? || e.Halt? || e == Arm(false) || e.Engage?
    || (e.Decode? && MessageTriplet(e.r.message).Fields? && DisplacedBy(s, MessageTriplet(e.r.message).value, e.r))
  }

  /** In any run a step drops a contact only if one was in progress, at most one,
      and only by abort, halt, disarming, engaging another call, or a decode of
      another station's call while the professional options are on and the contact
      is stuck; and the first four always do drop it. */
  lemma DroppedExactlyBy(ys: seq<System>, es: seq<Event>, k: nat)
    requires |ys| == |es| + 1 && k < |es| && IsRun(ys, es)
    ensures var s, s' := ys[k].op, ys[k + 1].op;
            && (s'.hist.dropped == s.hist.dropped || s'.hist.dropped == s.hist.dropped + 1)
            && (s'.hist.dropped > s.hist.dropped ==> s.active.Some? && TakesAway(s, es[k]))
            && (!es[k].Decode? && TakesAway(s, es[k]) && s.active.Some? ==> s'.hist.dropped > s.hist.dropped)
  {
    RunInv(ys, es, k);
    StepDrops(ys[k], es[k]);
  }

  lemma StepDrops(y: System, e: Event)
    requires SystemInv(y)
    ensures var s, s' := y.op, Step(y, e).op;
            && (s'.hist.dropped == s.hist.dropped || s'.hist.dropped == s.hist.dropped + 1)
            && (s'.hist.dropped > s.hist.dropped ==> s.active.Some? && TakesAway(s, e))
            && (!e.Decode? && TakesAway(s, e) && s.active.Some? ==> s'.hist.dropped > s.hist.dropped)
  {
    match e
    case Decode(r, now) => DecodesDropExactly(y.op, r, now);
    case Cycle(key, now) => CyclesDropNone(y.op, key, now);
    case Engage(call, hz, rx, snr, now) => EngageDrops(y.op, call, hz, rx, snr, now);
    case _ => CommandsDrop(y, e);
  }

  lemma EngageDrops(s: Operator, call: string, hz: real, rx: string, snr: int, now: Clock)
    ensures EngageCall(s, call, hz, rx, snr, now).hist.dropped == DropActive(s).hist.dropped
  {}

  lemma CommandsDrop(y: System, e: Event)
    requires !e.Decode? && !e.Cycle? && !e.Engage?
    ensures Step(y, e).op.hist.dropped == y.op.hist.dropped + if TakesAway(y.op, e) && y.op.active.Some? then 1 else 0
  {
    match e
    case Abort =>
    case Halt(_) =>
    case Arm(_) =>
    case _ => QuietDropsNone(y, e);
  }

  lemma QuietDropsNone(y: System, e: Event)
    requires !e.Decode? && !e.Cycle? && !e.Engage? && !e.Abort? && !e.Halt? && !e.Arm?
    ensures NoDrop(y.op, Step(y, e).op)
  {}
}

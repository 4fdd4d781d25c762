/** Whole runs of the operator and its transmit worker, under every interleaving
    of decodes, cycles, commands and worker steps. */
module OperatorRuns {
  import opened Base
  import opened Protocol
  import opened SlotClock
  import opened OperatorTypes
  import opened OperatorSteps
  import opened OperatorProofs

  // ------------------------------------------------------------------ runs

  predicate IsRun(ys: seq<System>, es: seq<Event>) {
    && |ys| == |es| + 1
    && ys[0].op == InitialOperator(ys[0].op.station) && ys[0].worker == Waiting
    && (forall k :: 0 <= k < |es| ==> ys[k + 1] == Step(ys[k], es[k]))
  }

  predicate SystemInv(y: System) {
    Inv(y.op) && (!y.worker.Waiting? ==> ItemOk(y.op, y.worker.item))
  }

  predicate HasClock(e: Event) { e.Decode? || e.Cycle? || e.Engage? || e.QueryCooldown? }

  function Mono(e: Event): real { if HasClock(e) then e.now.mono else 0.0 }

  /** The part of an allowed move that also holds of configuration changes. */
  predicate RunMove(s: Operator, s': Operator, mono: real) {
    s'.station.me == s.station.me && EpochMove(s, s') && ContactMove(s, s') && CooldownMove(s, s', mono)
  }

  predicate OwnTickStep(s: Operator, e: Event) { e.Cycle? && OwnTick(s, e.now) }

  predicate HistoryMove(s: Operator, s': Operator, e: Event) {
    if e.Decode? then
      && s'.hist.abandons == s.hist.abandons
      && (s'.hist != s.hist || s'.phase != s.phase ==> MessageTriplet(e.r.message).Fields?)
      && (MessageTriplet(e.r.message).Fields? ==>
           var t := MessageTriplet(e.r.message).value;
           ClosesOnly(s, s', t) && (s'.hist.log == s.hist.log || (Confirms(s, t) && Logged(s, s'))))
    else if OwnTickStep(s, e) then Ticked(s, s', e.now.mono)
    else s'.hist.log == s.hist.log && s'.hist.abandons == s.hist.abandons && PhaseKept(s, s')
  }

  /** One step from a consistent state. */
  predicate StepOk(s: Operator, s': Operator, e: Event) {
    && Inv(s') && RunMove(s, s', Mono(e)) && Fresh0(s, s')
    && (OwnTickStep(s, e) || Progress(s, s'))
    && HistoryMove(s, s', e)
    && (!HasClock(e) ==> s'.cooldown == s.cooldown && s'.hist.begun == s.hist.begun)
    && (e.Abort? || e.Halt? || e == Arm(false) ==> s.epoch < s'.epoch)
  }

  lemma DecodeOk(s: Operator, e: Event)
    requires Inv(s) && e.Decode?
    ensures StepOk(s, OnDecode(s, e.r, e.now), e)
  {
    if MessageTriplet(e.r.message).Fields? {
      OnDecodeHeard(s, e.r, MessageTriplet(e.r.message).value, e.now);
    } else {
      EditGood(s, s, e.now.mono);
    }
  }

  lemma CycleOk(s: Operator, e: Event)
    requires Inv(s) && e.Cycle?
    ensures StepOk(s, OnCycle(s, e.key, e.now), e)
  {
    OnCycleMoves(s, e.key, e.now);
  }

  lemma EngageOk(s: Operator, e: Event)
    requires Inv(s) && e.Engage?
    ensures StepOk(s, EngageCall(s, e.call, e.hz, e.rxReport, e.rxSnr, e.now), e)
  {
    EngageMoves(s, e.call, e.hz, e.rxReport, e.rxSnr, e.now);
  }

  lemma HaltOk(s: Operator, e: Event)
    requires Inv(s) && (e.Abort? || e.Halt?)
    ensures StepOk(s, HaltTransmission(s, if e.Abort? then true else e.keepArmed), e)
  {
    AbortMoves(s, if e.Abort? then true else e.keepArmed, 0.0);
  }

  lemma AbortIsHalt(s: Operator)
    ensures AbortQso(s) == HaltTransmission(s, true)
  {}

  lemma ArmOk(s: Operator, e: Event)
    requires Inv(s) && e.Arm?
    ensures StepOk(s, SetArmed(s, e.on), e)
  {
    SetArmedMoves(s, e.on, 0.0);
  }

  lemma QueryOk(s: Operator, e: Event)
    requires Inv(s) && e.QueryCooldown?
    ensures StepOk(s, OperatorStep(s, e), e)
  {
    EditGood(s, OperatorStep(s, e), e.now.mono);
  }

  lemma ConfigureOk(s: Operator, e: Event)
    requires Inv(s) && (e.CqOnly? || e.Configure? || e.CqWait?)
    ensures StepOk(s, OperatorStep(s, e), e)
  {
    Reconfigured(s, OperatorStep(s, e), 0.0);
  }

  lemma OperatorStepOk(s: Operator, e: Event)
    requires Inv(s)
    ensures StepOk(s, OperatorStep(s, e), e)
  {
    match e {
      case Decode(_, _) => DecodeOk(s, e);
      case Cycle(_, _) => CycleOk(s, e);
      case Engage(_, _, _, _, _) => EngageOk(s, e);
      case QueryCooldown(_) => QueryOk(s, e);
      case _ => CommandOk(s, e);
    }
  }

  lemma CommandOk(s: Operator, e: Event)
    requires Inv(s) && !HasClock(e)
    ensures StepOk(s, OperatorStep(s, e), e)
  {
    match e {
      case Abort => HaltOk(s, e); AbortIsHalt(s);
      case Halt(_) => HaltOk(s, e);
      case Arm(_) => ArmOk(s, e);
      case CqOnly(_) => ConfigureOk(s, e);
      case Configure(_) => ConfigureOk(s, e);
      case CqWait(_) => ConfigureOk(s, e);
      case _ => Reconfigured(s, s, 0.0);
    }
  }

  lemma Reconfigured(s: Operator, s': Operator, mono: real)
    requires Inv(s) && s'.station.me == s.station.me
    requires s' == s.(station := s'.station, cqOnly := s'.cqOnly, cqBuf := s'.cqBuf, inBuf := s'.inBuf,
             queuedSlot := s'.queuedSlot)
    ensures Inv(s') && RunMove(s, s', mono) && Progress(s, s') && Fresh0(s, s') && PhaseKept(s, s')
  {
    forall i | 0 <= i < |s'.queue| ensures ItemOk(s', s'.queue[i]) { assert ItemOk(s, s.queue[i]); }
  }

  lemma TakenFromQueue(s: Operator, mono: real)
    requires Inv(s) && s.queue != []
    ensures var s' := s.(queue := s.queue[1..]);
            Inv(s') && RunMove(s, s', mono) && Progress(s, s') && Fresh0(s, s') && PhaseKept(s, s')
              && ItemOk(s', s.queue[0])
  {
    var s' := s.(queue := s.queue[1..]);
    assert ItemOk(s, s.queue[0]);
    forall i | 0 <= i < |s'.queue| ensures ItemOk(s', s'.queue[i]) { assert ItemOk(s, s.queue[i + 1]); }
  }

  lemma StepKeeps(y: System, e: Event)
    requires SystemInv(y)
    ensures SystemInv(Step(y, e)) && StepOk(y.op, Step(y, e).op, e)
  {
    if e.Take? || e.PassSlot? || e.StartPlay? || e.StopItem? {
      WorkerStepKeeps(y, e);
    } else {
      OperatorStepOk(y.op, e);
      if !y.worker.Waiting? { RunItemsKept(y.op, OperatorStep(y.op, e), y.worker.item, Mono(e)); }
    }
  }

  lemma WorkerStepKeeps(y: System, e: Event)
    requires SystemInv(y) && (e.Take? || e.PassSlot? || e.StartPlay? || e.StopItem?)
    ensures SystemInv(Step(y, e)) && StepOk(y.op, Step(y, e).op, e)
  {
    var s' := Step(y, e).op;
    if e.Take? && y.worker.Waiting? && y.op.queue != [] {
      TakenFromQueue(y.op, 0.0);
    } else {
      Reconfigured(y.op, s', 0.0);
      assert e.StopItem? || y.worker.Waiting? || Step(y, e).worker.item == y.worker.item;
    }
  }

  lemma RunItemsKept(s: Operator, s': Operator, it: TxItem, mono: real)
    requires RunMove(s, s', mono) && ItemOk(s, it) && ContactOk(s) && ContactOk(s')
    ensures ItemOk(s', it)
  {}

  lemma InitialInv(st: Station)
    ensures SystemInv(System(InitialOperator(st), Waiting))
  {}

  /** Every reachable state is consistent. */
  lemma {:induction false} RunInv(ys: seq<System>, es: seq<Event>, k: nat)
    requires IsRun(ys, es) && k < |ys|
    ensures SystemInv(ys[k])
  {
    if k == 0 {
      InitialInv(ys[0].op.station);
    } else {
      RunInv(ys, es, k - 1);
      StepKeeps(ys[k - 1], es[k - 1]);
    }
  }

  /** What the whole-run results use of a run. */
  predicate Traced(ys: seq<System>, es: seq<Event>) {
    && |ys| == |es| + 1
    && ys[0].op.hist == History(0, [], [], 0, 0) && ys[0].op.phase == Idle
    && (forall k :: 0 <= k < |ys| ==> SystemInv(ys[k]))
    && (forall k :: 0 <= k < |es| ==> StepOk(ys[k].op, ys[k + 1].op, es[k]))
  }

  lemma RunIsTraced(ys: seq<System>, es: seq<Event>)
    requires IsRun(ys, es)
    ensures Traced(ys, es)
  {
    forall k | 0 <= k < |ys| ensures SystemInv(ys[k]) { RunInv(ys, es, k); }
    forall k | 0 <= k < |es| ensures StepOk(ys[k].op, ys[k + 1].op, es[k]) { StepKeeps(ys[k], es[k]); }
  }

  // ---------------------------------------------------------- cancellation

  /** In step k the worker's item passes an abort check. */
  predicate PassesCheck(ys: seq<System>, k: nat)
    requires k + 1 < |ys|
  {
    || (ys[k].worker.Slotting? && ys[k + 1].worker.Keyed?)
    || (ys[k].worker.Keyed? && ys[k + 1].worker.Playing?)
  }

  /** What passes an abort check is the operator's latest message; with a contact
      in progress it is addressed to that partner from us, on the contact's
      tone, in the contact's period. */
  lemma OnlyLatestPasses(ys: seq<System>, es: seq<Event>, k: nat)
    requires IsRun(ys, es) && k < |es| && PassesCheck(ys, k)
    ensures var it := ys[k].worker.item;
            var s := ys[k].op;
            && it.epoch == s.epoch && s.lastTx == Some(it.msg)
            && (s.active.Some? ==>
                && Addressed(it.msg, s.active.value, s.station.me)
                && it.hz == Snap(s.active.value.audioHz)
                && it.period == s.active.value.txPeriod)
  {
    RunInv(ys, es, k);
    WorkerPasses(ys[k], es[k]);
  }

  lemma WorkerPasses(y: System, e: Event)
    ensures (y.worker.Slotting? && Step(y, e).worker.Keyed?) || (y.worker.Keyed? && Step(y, e).worker.Playing?)
            ==> y.worker.item.epoch == y.op.epoch
  {}

  /** The worker goes on exactly with an item of the current epoch: past the slot wait
      once the item's window is open, and past the second check from there. */
  lemma ChecksPassExactly(y: System, wall: real)
    requires !y.worker.Waiting? ==> y.worker.item.period == 0 || y.worker.item.period == 1
    ensures Step(y, PassSlot(wall)) ==
              if y.worker.Slotting? && InWindow(y.worker.item.period, wall) && y.worker.item.epoch == y.op.epoch
              then System(y.op, Keyed(y.worker.item)) else y
    ensures Step(y, StartPlay) ==
              if y.worker.Keyed? && y.worker.item.epoch == y.op.epoch then System(y.op, Playing(y.worker.item)) else y
  {
    if !y.worker.Waiting? { DelayMeaning(y.worker.item.period, wall); }
  }

  predicate InPlay(y: System, it: TxItem) {
    it in y.op.queue || (!y.worker.Waiting? && it == y.worker.item)
  }

  lemma {:induction false} EpochGrows(ys: seq<System>, es: seq<Event>, i: nat, j: nat)
    requires Traced(ys, es) && i <= j < |ys|
    ensures ys[i].op.epoch <= ys[j].op.epoch
    decreases j
  {
    if i < j {
      EpochGrows(ys, es, i, j - 1);
    }
  }

  /** Abort, halt, disarm, giving a contact up, a new contact and any new
      message raise the epoch. */
  lemma StepsThatCancel(ys: seq<System>, es: seq<Event>, i: nat)
    requires IsRun(ys, es) && i < |es|
    requires es[i].Abort? || es[i].Halt? || es[i] == Arm(false)
          || |ys[i].op.hist.abandons| < |ys[i + 1].op.hist.abandons|
          || ys[i].op.lastTx != ys[i + 1].op.lastTx
          || (ys[i + 1].op.active.Some? && ys[i + 1].op.active.value.id > ys[i].op.hist.begun)
    ensures ys[i].op.epoch < ys[i + 1].op.epoch
  {
    RunIsTraced(ys, es);
  }

  /** Once a step has raised the epoch, nothing that was queued or held by the
      worker before it ever passes an abort check. */
  lemma CancelledNeverPasses(ys: seq<System>, es: seq<Event>, i: nat, j: nat, earlier: TxItem)
    requires IsRun(ys, es) && i < j < |es|
    requires ys[i].op.epoch < ys[i + 1].op.epoch
    requires InPlay(ys[i], earlier)
    requires PassesCheck(ys, j)
    ensures ys[j].worker.item.epoch > ys[i].op.epoch >= earlier.epoch
    ensures ys[j].worker.item != earlier
  {
    RunIsTraced(ys, es);
    assert SystemInv(ys[i]);
    if earlier in ys[i].op.queue {
      var n :| 0 <= n < |ys[i].op.queue| && ys[i].op.queue[n] == earlier;
      assert ItemOk(ys[i].op, ys[i].op.queue[n]);
    }
    EpochGrows(ys, es, i + 1, j);
    WorkerPasses(ys[j], es[j]);
  }

  // ------------------------------------------------- one contact, one tone

  predicate ContactsMove(ys: seq<System>) {
    forall k :: 0 <= k < |ys| - 1 ==> ContactMove(ys[k].op, ys[k + 1].op)
  }

  lemma {:induction false} ContactsDoNotReturn(ys: seq<System>, i: nat, j: nat)
    requires ContactsMove(ys) && i <= j < |ys|
    ensures ys[i].op.hist.begun <= ys[j].op.hist.begun
    ensures ys[j].op.active.Some? && ys[j].op.active.value.id <= ys[i].op.hist.begun ==> SameContact(ys[i].op, ys[j].op)
    decreases j
  {
    if i < j {
      ContactsDoNotReturn(ys, i, j - 1);
      assert ContactMove(ys[j - 1].op, ys[j].op);
    }
  }

  predicate SameTerms(a: ActiveQso, b: ActiveQso) {
    a.remote == b.remote && a.audioHz == b.audioHz && a.txPeriod == b.txPeriod && a.how == b.how && a.timeOn == b.timeOn
  }

  lemma {:induction false} ContactStays(ys: seq<System>, i: nat, j: nat)
    requires ContactsMove(ys) && i <= j < |ys|
    requires SameContact(ys[i].op, ys[j].op) && ys[i].op.active.value.id <= ys[i].op.hist.begun
    ensures SameTerms(ys[i].op.active.value, ys[j].op.active.value)
    decreases j
  {
    if i < j {
      ContactsDoNotReturn(ys, i, j - 1);
      assert ContactMove(ys[j - 1].op, ys[j].op);
      ContactStays(ys, i, j - 1);
    }
  }

  /** Partner, tone, period and way of starting stay fixed as long as a contact lasts. */
  lemma ContactIsConstant(ys: seq<System>, es: seq<Event>, i: nat, j: nat)
    requires IsRun(ys, es) && i <= j < |ys|
    requires SameContact(ys[i].op, ys[j].op)
    ensures SameTerms(ys[i].op.active.value, ys[j].op.active.value)
  {
    RunIsTraced(ys, es);
    forall k | 0 <= k < |ys| - 1 ensures ContactMove(ys[k].op, ys[k + 1].op) {
      assert StepOk(ys[k].op, ys[k + 1].op, es[k]);
    }
    assert SystemInv(ys[i]);
    ContactStays(ys, i, j);
  }

  // ---------------------------------------------------- every contact ends

  predicate TicksAt(ys: seq<System>, es: seq<Event>, q: nat, k: nat)
    requires |ys| == |es| + 1 && k < |es|
  {
    OwnTickStep(ys[k].op, es[k]) && ys[k].op.active.value.id == q
  }

  /** Armed cycle calls among the first n events that find contact q active in its own period. */
  function OwnTicks(ys: seq<System>, es: seq<Event>, q: nat, n: nat): (c: nat)
    requires |ys| == |es| + 1 && n <= |es|
  {
    if n == 0 then 0
    else OwnTicks(ys, es, q, n - 1) + (if TicksAt(ys, es, q, n - 1) then 1 else 0)
  }

  predicate RetriesAtMost(ys: seq<System>, m: nat) {
    forall k :: 0 <= k < |ys| ==> ys[k].op.station.pro.MaxRetry() <= m
  }

  predicate ActiveIs(s: Operator, q: nat) { s.active.Some? && s.active.value.id == q }

  /** Cycles spent by contact q, against what its state still allows. */
  predicate Budget(s: Operator, q: nat, m: nat, ticks: nat) {
    && (s.hist.begun < q ==> ticks == 0)
    && (ActiveIs(s, q) ==>
         var c, p := s.active.value.cycles, Pending(s.active.value, s.phase);
         c <= m && ticks <= m * (3 - p) + c)
    && ticks <= 4 * m + 1
  }

  lemma BudgetArithmetic(m: nat, p: nat, p': nat, c: nat)
    requires p' <= p <= 3 && c <= m
    ensures m * (3 - p) + c <= 4 * m
    ensures p' < p ==> m * (3 - p) + c <= m * (3 - p')
  {
    assert m * (3 - p) <= m * 3;
    if p' < p { assert m * (3 - p') >= m * (3 - p + 1) == m * (3 - p) + m; }
  }

  /** One step of a continuing contact stays within its budget. */
  lemma BudgetContinues(m: nat, p: nat, p': nat, c: nat, c': nat, ticks: nat, tick: bool)
    requires p <= 3 && p' <= 3 && c <= m && ticks <= m * (3 - p) + c
    requires if tick then p' == p && c' == c + 1 <= m else (p' < p && c' == 0) || (p' == p && c' == c)
    ensures var ticks' := ticks + if tick then 1 else 0;
            c' <= m && ticks' <= m * (3 - p') + c' && ticks' <= 4 * m + 1
  {
    BudgetArithmetic(m, p, if p' < p then p' else p, c);
    BudgetArithmetic(m, p', 0, c');
  }

  /** What one step does to the count of contact q. */
  predicate Counts(s: Operator, s': Operator, q: nat, tick: bool) {
    && s.hist.begun <= s'.hist.begun && (tick ==> ActiveIs(s, q)) && (ActiveIs(s, q) ==> s.hist.begun >= q)
    && (!ActiveIs(s, q) && ActiveIs(s', q) ==> s.hist.begun < q && s'.active.value.cycles == 0)
    && (ActiveIs(s, q) && ActiveIs(s', q) ==>
         var c, c' := s.active.value.cycles, s'.active.value.cycles;
         var p, p' := Pending(s.active.value, s.phase), Pending(s'.active.value, s'.phase);
         if tick then p' == p && c' == c + 1 <= s.station.pro.MaxRetry()
         else (p' < p && c' == 0) || (p' == p && c' == c))
  }

  lemma StepCounts(s: Operator, s': Operator, e: Event, q: nat)
    requires Inv(s) && Inv(s') && StepOk(s, s', e) && q >= 1
    ensures Counts(s, s', q, OwnTickStep(s, e) && s.active.value.id == q)
  {}

  lemma BudgetStep(s: Operator, s': Operator, q: nat, m: nat, ticks: nat, tick: bool)
    requires Counts(s, s', q, tick) && Budget(s, q, m, ticks) && s.station.pro.MaxRetry() <= m
    ensures Budget(s', q, m, ticks + if tick then 1 else 0)
  {
    if ActiveIs(s, q) {
      var p := Pending(s.active.value, s.phase);
      BudgetArithmetic(m, p, 0, s.active.value.cycles);
      if ActiveIs(s', q) {
        BudgetContinues(m, p, Pending(s'.active.value, s'.phase), s.active.value.cycles, s'.active.value.cycles,
          ticks, tick);
      }
    } else if ActiveIs(s', q) {
      BudgetArithmetic(m, Pending(s'.active.value, s'.phase), 0, 0);
    }
  }

  predicate TicksCounted(ys: seq<System>, es: seq<Event>, q: nat) {
    && |ys| == |es| + 1 && ys[0].op.hist.begun == 0 && ys[0].op.active.None?
    && forall k :: 0 <= k < |es| ==> Counts(ys[k].op, ys[k + 1].op, q, TicksAt(ys, es, q, k))
  }

  lemma RunIsCounted(ys: seq<System>, es: seq<Event>, q: nat)
    requires IsRun(ys, es) && q >= 1
    ensures TicksCounted(ys, es, q)
  {
    forall k | 0 <= k < |es| ensures Counts(ys[k].op, ys[k + 1].op, q, TicksAt(ys, es, q, k)) {
      RunInv(ys, es, k);
      StepKeeps(ys[k], es[k]);
      StepCounts(ys[k].op, ys[k + 1].op, es[k], q);
    }
  }

  lemma {:induction false} BudgetHolds(ys: seq<System>, es: seq<Event>, q: nat, m: nat, n: nat)
    requires TicksCounted(ys, es, q) && n <= |es| && q >= 1 && RetriesAtMost(ys, m)
    ensures Budget(ys[n].op, q, m, OwnTicks(ys, es, q, n))
  {
    if n > 0 {
      BudgetHolds(ys, es, q, m, n - 1);
      BudgetStep(ys[n - 1].op, ys[n].op, q, m, OwnTicks(ys, es, q, n - 1), TicksAt(ys, es, q, n - 1));
    }
  }

  /** With at most M retries allowed, no contact is found active by more than
      4M+1 armed cycle calls in its own period, and after the (4M+1)-th it is
      over, whatever is decoded and however the settings change up to M. */
  lemma EveryContactEnds(ys: seq<System>, es: seq<Event>, q: nat, m: nat, n: nat)
    requires IsRun(ys, es) && n <= |es| && q >= 1 && RetriesAtMost(ys, m)
    ensures OwnTicks(ys, es, q, n) <= 4 * m + 1
    ensures OwnTicks(ys, es, q, n) == 4 * m + 1 ==> !ActiveIs(ys[n].op, q)
  {
    RunIsCounted(ys, es, q);
    BudgetHolds(ys, es, q, m, n);
    if ActiveIs(ys[n].op, q) {
      BudgetArithmetic(m, Pending(ys[n].op.active.value, ys[n].op.phase), 0, ys[n].op.active.value.cycles);
    }
  }

  // ------------------------------------------------------ justified logging

  /** Every contact begun is logged, abandoned, dropped or still active, and no
      contact is logged twice. */
  lemma ContactsAreConserved(ys: seq<System>, es: seq<Event>, n: nat)
    requires IsRun(ys, es) && n < |ys|
    ensures var h := ys[n].op.hist;
            && h.begun == |h.log| + |h.abandons| + h.dropped + (if ys[n].op.active.Some? then 1 else 0)
            && (forall i, j :: 0 <= i < j < |h.log| ==> h.log[i].id < h.log[j].id <= h.begun)
  {
    RunIsTraced(ys, es);
  }

  /** Event k is a decode, during contact q, of a message between us and the
      partner whose third field is an R-report, RRR, RR73 or 73. */
  predicate ConfirmStep(y: System, e: Event, q: nat) {
    && e.Decode? && ActiveIs(y.op, q)
    && MessageTriplet(e.r.message).Fields? && Confirms(y.op, MessageTriplet(e.r.message).value)
  }

  predicate ConfirmedBefore(ys: seq<System>, es: seq<Event>, q: nat, n: nat)
    requires |ys| == |es| + 1 && n <= |es|
  {
    exists k :: 0 <= k < n && ConfirmStep(ys[k], es[k], q)
  }

  lemma {:induction false} ClosingIsConfirmed(ys: seq<System>, es: seq<Event>, n: nat)
    requires Traced(ys, es) && n <= |es|
    ensures ys[n].op.phase == Closing ==> ys[n].op.active.Some? && ConfirmedBefore(ys, es, ys[n].op.active.value.id, n)
  {
    if n > 0 {
      ClosingIsConfirmed(ys, es, n - 1);
      var s, s' := ys[n - 1].op, ys[n].op;
      if s'.phase == Closing && SameContact(s, s') && s.phase != Closing {
        assert ConfirmStep(ys[n - 1], es[n - 1], s'.active.value.id);
      }
    }
  }

  /** Step n - 1 writes at most one record, of a contact confirmed by then. */
  predicate WritesConfirmed(ys: seq<System>, es: seq<Event>, n: nat)
    requires |ys| == |es| + 1 && 0 < n <= |es|
  {
    var before, after := ys[n - 1].op.hist.log, ys[n].op.hist.log;
    after == before
    || (|after| == |before| + 1 && after[..|before|] == before && ConfirmedBefore(ys, es, after[|before|].id, n))
  }

  lemma NewRecordIsConfirmed(ys: seq<System>, es: seq<Event>, n: nat)
    requires Traced(ys, es) && 0 < n <= |es|
    ensures WritesConfirmed(ys, es, n)
  {
    var s, s' := ys[n - 1].op, ys[n].op;
    assert StepOk(s, s', es[n - 1]);
    if s'.hist.log != s.hist.log {
      var id := s'.hist.log[|s.hist.log|].id;
      if es[n - 1].Decode? {
        assert ConfirmStep(ys[n - 1], es[n - 1], id);
      } else {
        ClosingIsConfirmed(ys, es, n - 1);
        ConfirmedLater(ys, es, id, n - 1, n);
      }
    }
  }

  lemma ConfirmedLater(ys: seq<System>, es: seq<Event>, q: nat, m: nat, n: nat)
    requires |ys| == |es| + 1 && m <= n <= |es| && ConfirmedBefore(ys, es, q, m)
    ensures ConfirmedBefore(ys, es, q, n)
  {}

  predicate OneMoreAtMost(before: seq<LogRecord>, after: seq<LogRecord>) {
    after == before || (|after| == |before| + 1 && after[..|before|] == before)
  }

  /** Every record was written in some step, as the last one then. */
  lemma {:induction false} WrittenOnce(logs: seq<seq<LogRecord>>, n: nat, i: nat) returns (k: nat)
    requires n < |logs| && logs[0] == [] && i < |logs[n]|
    requires forall k :: 0 < k < |logs| ==> OneMoreAtMost(logs[k - 1], logs[k])
    ensures 0 < k <= n && |logs[k - 1]| == i && |logs[k]| == i + 1 && logs[k][i] == logs[n][i]
    decreases n
  {
    assert n > 0 && OneMoreAtMost(logs[n - 1], logs[n]);
    if i < |logs[n - 1]| {
      k := WrittenOnce(logs, n - 1, i);
      assert logs[n][i] == logs[n][..|logs[n - 1]|][i];
    } else {
      k := n;
    }
  }

  lemma LogsOf(ys: seq<System>, es: seq<Event>) returns (logs: seq<seq<LogRecord>>)
    requires IsRun(ys, es)
    ensures |logs| == |ys| && logs[0] == [] && (forall k :: 0 <= k < |ys| ==> logs[k] == ys[k].op.hist.log)
    ensures forall k :: 0 < k < |logs| ==> OneMoreAtMost(logs[k - 1], logs[k])
  {
    logs := seq(|ys|, k requires 0 <= k < |ys| => ys[k].op.hist.log);
    forall k | 0 < k < |logs| ensures OneMoreAtMost(logs[k - 1], logs[k]) { LogGrows(ys, es, k); }
  }

  lemma LogGrows(ys: seq<System>, es: seq<Event>, k: nat)
    requires |ys| == |es| + 1 && 0 < k <= |es| && IsRun(ys, es)
    ensures OneMoreAtMost(ys[k - 1].op.hist.log, ys[k].op.hist.log)
  {
    RunIsTraced(ys, es);
    NewRecordIsConfirmed(ys, es, k);
  }

  lemma WrittenIsConfirmed(ys: seq<System>, es: seq<Event>, k: nat, n: nat, id: nat)
    requires |ys| == |es| + 1 && 0 < k <= n <= |es| && |ys[k].op.hist.log| == |ys[k - 1].op.hist.log| + 1
    requires id == ys[k].op.hist.log[|ys[k].op.hist.log| - 1].id
    requires IsRun(ys, es)
    ensures ConfirmedBefore(ys, es, id, n)
  {
    RunIsTraced(ys, es);
    NewRecordIsConfirmed(ys, es, k);
    ConfirmedLater(ys, es, id, k, n);
  }

  /** A log record is written only for a contact during which its partner's
      confirmation was decoded. */
  lemma EveryRecordIsConfirmed(ys: seq<System>, es: seq<Event>, n: nat, i: nat)
    requires |ys| == |es| + 1 && n <= |es| && i < |ys[n].op.hist.log|
    requires IsRun(ys, es)
    ensures ConfirmedBefore(ys, es, ys[n].op.hist.log[i].id, n)
  {
    var logs := LogsOf(ys, es);
    var k := WrittenOnce(logs, n, i);
    WrittenIsConfirmed(ys, es, k, n, ys[n].op.hist.log[i].id);
  }

  // --------------------------------------------------------------- cooldown

  /** The monotonic clock does not run backwards. */
  predicate ClockForward(es: seq<Event>) {
    forall i, j :: 0 <= i < j < |es| && HasClock(es[i]) && HasClock(es[j]) ==> es[i].now.mono <= es[j].now.mono
  }

  /** In step k contact with c was given up, cooling down until `until`. */
  predicate GivenUpAt(ys: seq<System>, k: nat, c: string, until: real)
    requires k + 1 < |ys|
  {
    var a, a' := ys[k].op.hist.abandons, ys[k + 1].op.hist.abandons;
    |a'| == |a| + 1 && a'[|a|].call == c && a'[|a|].until == until
  }

  predicate AnswersCqAt(ys: seq<System>, k: nat, c: string)
    requires k + 1 < |ys|
  {
    var s, s' := ys[k].op, ys[k + 1].op;
    s'.active.Some? && s'.active.value.id > s.hist.begun && s'.active.value.how == CqAnswer
      && s'.active.value.remote == c
  }

  /** In none of the steps i up to j is c logged or given up. */
  predicate Untouched(ys: seq<System>, c: string, i: nat, j: nat)
    requires j < |ys|
  {
    forall k :: i <= k < j ==> !LoggedSince(ys[k].op, ys[k + 1].op, c) && !AbandonedSince(ys[k].op, ys[k + 1].op, c)
  }

  lemma GivingUpCools(ys: seq<System>, es: seq<Event>, i: nat, c: string, until: real)
    requires Traced(ys, es) && i < |es| && GivenUpAt(ys, i, c, until) && c != ""
    ensures c in ys[i + 1].op.cooldown && ys[i + 1].op.cooldown[c] == until
    ensures es[i].Cycle? && until == es[i].now.mono + ys[i].op.station.pro.CooldownSec() as real
  {}

  lemma CooldownStaysOneStep(s: Operator, s': Operator, e: Event, c: string, until: real)
    requires StepOk(s, s', e) && c in s.cooldown && s.cooldown[c] == until
    requires HasClock(e) ==> e.now.mono < until
    requires !LoggedSince(s, s', c) && !AbandonedSince(s, s', c)
    ensures c in s'.cooldown && s'.cooldown[c] == until
  {}

  lemma {:induction false} CooldownStands(ys: seq<System>, es: seq<Event>, i: nat, j: nat, c: string, until: real)
    requires |ys| == |es| + 1 && i < j <= |es| && GivenUpAt(ys, i, c, until) && c != ""
    requires forall k :: i < k < j && HasClock(es[k]) ==> es[k].now.mono < until
    requires Untouched(ys, c, i + 1, j)
    requires Traced(ys, es)
    ensures c in ys[j].op.cooldown && ys[j].op.cooldown[c] == until
    decreases j
  {
    if j == i + 1 {
      GivingUpCools(ys, es, i, c, until);
    } else {
      CooldownStands(ys, es, i, j - 1, c, until);
      CooldownStaysOneStep(ys[j - 1].op, ys[j].op, es[j - 1], c, until);
    }
  }

  /** No CQ of a call given up is answered before its cooldown has run out,
      counted from the latest time it was given up, unless a contact with it was
      logged in between. This covers candidates buffered before. */
  lemma CooldownIsKept(ys: seq<System>, es: seq<Event>, i: nat, j: nat, c: string, until: real)
    requires |ys| == |es| + 1 && i < j < |es| && ClockForward(es)
    requires GivenUpAt(ys, i, c, until) && c != "" && Untouched(ys, c, i + 1, j + 1) && AnswersCqAt(ys, j, c)
    requires IsRun(ys, es)
    ensures HasClock(es[j]) && es[j].now.mono >= until
    ensures until == es[i].now.mono + ys[i].op.station.pro.CooldownSec() as real
  {
    RunIsTraced(ys, es);
    GivingUpCools(ys, es, i, c, until);
    StartsHaveClocks(ys, es, j);
    if es[j].now.mono < until {
      CooldownStands(ys, es, i, j, c, until);
      assert false;
    }
  }

  lemma StartsHaveClocks(ys: seq<System>, es: seq<Event>, j: nat)
    requires Traced(ys, es) && j < |es| && ys[j].op.hist.begun < ys[j + 1].op.hist.begun
    ensures HasClock(es[j])
  {}
}

/** What every operator method keeps. Each method is shown to move from a
    consistent state to a consistent state under one transitive relation; whole
    runs are treated in OperatorRuns. */
module OperatorProofs {
  import opened Base
  import opened Protocol
  import opened SlotClock
  import opened OperatorTypes
  import opened OperatorSteps
  import opened ProtocolProofs

  // ------------------------------------------------------- consistent states

  /** The message is for the partner, by name or by the bracketed form of it. */
  predicate Addressed(m: TxMessage, q: ActiveQso, me: string) {
    m.Message? && m.de == me && (m.to == q.remote || CallKey(m.to) == q.remote)
  }

  /** An item no newer than the epoch; of the current epoch only the operator's
      last message, on the tone and in the period of the contact in progress. */
  predicate ItemOk(s: Operator, it: TxItem) {
    && it.epoch <= s.epoch
    && (it.epoch == s.epoch ==>
        && s.lastTx == Some(it.msg)
        && (s.active.Some? ==>
            && it.hz == Snap(s.active.value.audioHz)
            && it.period == s.active.value.txPeriod))
  }

  predicate QueueOk(s: Operator) { forall i :: 0 <= i < |s.queue| ==> ItemOk(s, s.queue[i]) }

  predicate ContactOk(s: Operator) {
    && (s.active.None? <==> s.phase == Idle || s.phase == CallingCq)
    && (s.lastTx.Some? ==> s.lastTx.value.de == s.station.me)
    && (s.active.Some? ==>
        && s.active.value.id == s.hist.begun
        && (s.active.value.txPeriod == 0 || s.active.value.txPeriod == 1)
        && s.lastTx.Some? && Addressed(s.lastTx.value, s.active.value, s.station.me))
  }

  /** Every contact begun is logged, abandoned, dropped or still active; each is logged at most once. */
  predicate HistoryOk(s: Operator) {
    var h := s.hist;
    && h.begun == |h.log| + |h.abandons| + h.dropped + (if s.active.Some? then 1 else 0)
    && (forall i :: 0 <= i < |h.log| ==> 1 <= h.log[i].id <= h.begun && (s.active.Some? ==> h.log[i].id < h.begun))
    && (forall i, j :: 0 <= i < j < |h.log| ==> h.log[i].id < h.log[j].id)
  }

  predicate Inv(s: Operator) { QueueOk(s) && ContactOk(s) && HistoryOk(s) }

  // --------------------------------------------------------- allowed moves

  /** Either the epoch rose, or the items that are current stay as they were. */
  predicate EpochMove(s: Operator, s': Operator) {
    || s.epoch < s'.epoch
    || (&& s.epoch == s'.epoch
        && s.lastTx == s'.lastTx
        && (s'.active.Some? ==> s.active.Some? && s.active.value.id == s'.active.value.id))
  }

  predicate SameContact(s: Operator, s': Operator) {
    s.active.Some? && s'.active.Some? && s.active.value.id == s'.active.value.id
  }

  /** What never changes while one contact is in progress. */
  predicate ContactMove(s: Operator, s': Operator) {
    && s.hist.begun <= s'.hist.begun
    && (s'.active.Some? && s'.active.value.id <= s.hist.begun ==> SameContact(s, s'))
    && (SameContact(s, s') ==>
        var a, b := s.active.value, s'.active.value;
        && a.how == b.how && a.remote == b.remote && a.audioHz == b.audioHz
        && a.txPeriod == b.txPeriod && a.timeOn == b.timeOn
        && (s.phase == Closing ==> s'.phase == Closing))
  }

  predicate LoggedSince(s: Operator, s': Operator, c: string) {
    exists i :: |s.hist.log| <= i < |s'.hist.log| && CallKey(s'.hist.log[i].call) == c
  }

  predicate AbandonedSince(s: Operator, s': Operator, c: string) {
    exists i :: |s.hist.abandons| <= i < |s'.hist.abandons| && s'.hist.abandons[i].call == c
  }

  /** A call's cooldown ends by time, by a log record for it, or by being abandoned again. */
  predicate Released(s: Operator, s': Operator, c: string, mono: real) {
    c !in s.cooldown || mono >= s.cooldown[c] || LoggedSince(s, s', c) || AbandonedSince(s, s', c)
  }

  predicate CooldownMove(s: Operator, s': Operator, mono: real) {
    && s.hist.log <= s'.hist.log
    && s.hist.abandons <= s'.hist.abandons
    && (forall c :: c in s.cooldown ==>
          (c in s'.cooldown && s'.cooldown[c] == s.cooldown[c]) || Released(s, s', c, mono))
    && (s'.active.Some? && s'.active.value.id > s.hist.begun && s'.active.value.how == CqAnswer ==>
          Released(s, s', s'.active.value.remote, mono))
  }

  predicate Move(s: Operator, s': Operator, mono: real) {
    && s'.station == s.station
    && EpochMove(s, s')
    && ContactMove(s, s')
    && CooldownMove(s, s', mono)
  }

  // What the retry bound and the CQ cadence rest on.

  /** Steps of the exchange still to come that may reset the retry counter. */
  function Pending(q: ActiveQso, phase: Phase): nat {
    (if q.rstSent == "" then 1 else 0) + (if q.rstRcvd == "" then 1 else 0) + (if phase == Closing then 0 else 1)
  }

  predicate Progress(s: Operator, s': Operator) {
    SameContact(s, s') ==>
      var a, b := s.active.value, s'.active.value;
      || (Pending(b, s'.phase) < Pending(a, s.phase) && b.cycles == 0)
      || (Pending(b, s'.phase) == Pending(a, s.phase) && b.cycles == a.cycles)
  }

  predicate Fresh0(s: Operator, s': Operator) {
    s'.active.Some? && s'.active.value.id > s.hist.begun ==> s'.active.value.cycles == 0
  }

  /** No CQ is sent and the CQ schedule is untouched unless a contact is involved. */
  predicate CqStill(s: Operator, s': Operator) {
    && s'.armed == s.armed && s'.cqPeriod == s.cqPeriod && s'.lastCycle == s.lastCycle
    && s'.hist.cqs == s.hist.cqs && s'.cqOnly == s.cqOnly
    && (s.active.None? && s'.hist.begun == s.hist.begun ==> s'.cqWait == s.cqWait)
  }

  predicate Quiet(s: Operator, s': Operator) { Progress(s, s') && Fresh0(s, s') && CqStill(s, s') }

  /** The closing phase is entered only on an R-report or RRR between us and the partner. */
  predicate ClosesOnly(s: Operator, s': Operator, t: Triplet) {
    && (SameContact(s, s') && s.phase != Closing && s'.phase == Closing ==> Confirms(s, t))
    && (s'.active.Some? && s'.active.value.id > s.hist.begun ==> s'.phase == Active)
  }

  /** The message confirms the contact in progress. */
  predicate Confirms(s: Operator, t: Triplet) {
    && s.active.Some?
    && BetweenUs(t, s.station.me, s.active.value.remote)
    && (IsRReport(t.third) || IsRrr(t.third) || IsRr73(t.third) || Is73(t.third))
  }

  lemma MoveTrans(a: Operator, b: Operator, c: Operator, mono: real)
    requires Move(a, b, mono) && Move(b, c, mono)
    requires ContactOk(a) && ContactOk(b) && ContactOk(c)
    ensures Move(a, c, mono)
  {
    forall k | LoggedSince(a, b, k) || LoggedSince(b, c, k) ensures LoggedSince(a, c, k) {
      if LoggedSince(a, b, k) {
        var i :| |a.hist.log| <= i < |b.hist.log| && CallKey(b.hist.log[i].call) == k;
        assert c.hist.log[i] == b.hist.log[i];
      }
    }
    forall k | AbandonedSince(a, b, k) || AbandonedSince(b, c, k) ensures AbandonedSince(a, c, k) {
      if AbandonedSince(a, b, k) {
        var i :| |a.hist.abandons| <= i < |b.hist.abandons| && b.hist.abandons[i].call == k;
        assert c.hist.abandons[i] == b.hist.abandons[i];
      }
    }
  }

  lemma QuietTrans(a: Operator, b: Operator, c: Operator, mono: real)
    requires Move(a, b, mono) && Move(b, c, mono) && Quiet(a, b) && Quiet(b, c)
    requires ContactOk(a) && ContactOk(b) && ContactOk(c)
    ensures Quiet(a, c)
  {}

  /** A consistent state reached by an allowed move that sends no CQ and leaves
      the phase of a continuing contact alone. */
  predicate Good(s: Operator, s': Operator, mono: real) {
    && Inv(s') && Move(s, s', mono) && Quiet(s, s')
    && s'.hist.log == s.hist.log && s'.hist.abandons == s.hist.abandons
    && PhaseKept(s, s')
  }

  predicate PhaseKept(s: Operator, s': Operator) {
    && (SameContact(s, s') ==> s'.phase == s.phase)
    && (s'.active.Some? && s'.active.value.id > s.hist.begun ==> s'.phase == Active)
  }

  lemma GoodTrans(a: Operator, b: Operator, c: Operator, mono: real)
    requires Inv(a) && Good(a, b, mono) && Good(b, c, mono)
    ensures Good(a, c, mono)
  {
    MoveTrans(a, b, c, mono);
    QuietTrans(a, b, c, mono);
  }

  /** Changes outside the contact, the queue and the schedule; cooldowns may expire. */
  predicate Edited(s: Operator, s': Operator, mono: real) {
    && s' == s.(cooldown := s'.cooldown, intel := s'.intel, cqBuf := s'.cqBuf, inBuf := s'.inBuf,
       defaultHz := s'.defaultHz)
    && (forall c :: c in s.cooldown ==>
          (c in s'.cooldown && s'.cooldown[c] == s.cooldown[c]) || mono >= s.cooldown[c])
  }

  lemma EditGood(s: Operator, s': Operator, mono: real)
    requires Inv(s) && Edited(s, s', mono)
    ensures Good(s, s', mono)
  {
    forall i | 0 <= i < |s'.queue| ensures ItemOk(s', s'.queue[i]) { assert ItemOk(s, s.queue[i]); }
  }

  /** A new message is alone in the queue, of a new epoch, and the latest; a retry
      adds itself at most, under the old epoch, and only if the slot it would go out
      in holds nothing yet, so asking again in that slot changes nothing. */
  lemma OneMessagePerSlot(s: Operator, msg: TxMessage, hz: real, now: Clock)
    ensures var s' := QueueTx(s, msg, hz, false, now);
            && s'.queue == [TxItem(msg, Snap(hz), ResolveTxPeriod(s, now), s'.epoch)]
            && s.epoch < s'.epoch && s'.lastTx == Some(msg)
    ensures var s' := QueueTx(s, msg, hz, true, now);
            && s'.epoch == s.epoch && s'.lastTx == s.lastTx && s.queue <= s'.queue && |s'.queue| <= |s.queue| + 1
            && (s'.queue == s.queue <==> s.queuedSlot == Some(TxSlotStart(ResolveTxPeriod(s, now), now.wall)))
    ensures forall retry: bool ::
              var s' := QueueTx(s, msg, hz, retry, now);
              QueueTx(s', msg, hz, true, now) == s'
  {}

  // ------------------------------------------------------ starting a contact

  /** Beginning a contact, sending its first message and noting the reports. */
  function Opened(
    s: Operator, how: Origin, call: string, grid: string, heard: int, sent: string, rcvd: string, third: string,
    hz: real, dhz: real, now: Clock): Operator
  {
    var begun := BeginQso(s, how, call, grid, hz, heard, now).(defaultHz := dhz);
    SetRst(QueueTx(begun, Message(call, s.station.me, third), hz, false, now), sent, rcvd)
  }

  lemma OpenedGood(
    s: Operator, how: Origin, call: string, grid: string, heard: int, sent: string, rcvd: string, third: string,
    hz: real, dhz: real, now: Clock)
    requires Inv(s) && s.active.None?
    requires how == CqAnswer ==> CallKey(call) !in s.cooldown || now.mono >= s.cooldown[CallKey(call)]
    ensures var s' := Opened(s, how, call, grid, heard, sent, rcvd, third, hz, dhz, now);
            && Good(s, s', now.mono) && s.epoch < s'.epoch
            && s'.active.Some? && s'.hist.begun == s.hist.begun + 1 && s'.active.value.how == how
            && s'.active.value.remote == CallKey(call) && s'.active.value.txPeriod == OppositePeriod(heard)
  {}

  lemma AnswerCqOpens(s: Operator, call: string, grid: string, hz: real, snr: int, cycle: CycleTag, now: Clock)
    requires !CoolingDown(s.cooldown, call, now.mono)
    ensures var third := if PrefersFastReport(s) && Grid4Upper(grid) != "" then SnrText(snr) else s.station.grid4;
            var sent := if PrefersFastReport(s) && Grid4Upper(grid) != "" then SnrText(snr) else "";
            AnswerCq(s, call, grid, hz, snr, cycle, now)
            == Opened(AskCooldown(s, call, now), CqAnswer, call, grid, HeardPeriod(cycle, now), sent, "", third,
              hz, hz, now)
  {}

  lemma AnswerCqGood(s: Operator, call: string, grid: string, hz: real, snr: int, cycle: CycleTag, now: Clock)
    requires Inv(s) && s.active.None?
    ensures Good(s, AnswerCq(s, call, grid, hz, snr, cycle, now), now.mono)
  {
    var s0 := AskCooldown(s, call, now);
    EditGood(s, s0, now.mono);
    if !CoolingDown(s.cooldown, call, now.mono) {
      var fast := PrefersFastReport(s) && Grid4Upper(grid) != "";
      var third, sent := if fast then SnrText(snr) else s.station.grid4, if fast then SnrText(snr) else "";
      OpenedGood(s0, CqAnswer, call, grid, HeardPeriod(cycle, now), sent, "", third, hz, hz, now);
      AnswerCqOpens(s, call, grid, hz, snr, cycle, now);
      GoodTrans(s, s0, AnswerCq(s, call, grid, hz, snr, cycle, now), now.mono);
    }
  }

  /** The first message to a caller, and the reports noted with it. */
  function ReplyThird(st: Station, rxReport: string, snr: int, skipGrid: bool): (string, string, string) {
    if rxReport != "" && IsReport(rxReport) && !IsRReport(rxReport) then
      ("R" + SnrText(snr), SnrText(snr), RstFromReport(rxReport))
    else if skipGrid then (SnrText(snr), SnrText(snr), "")
    else (st.grid4, "", "")
  }

  /** Noting the reports before or after a new message is queued makes no difference. */
  lemma RstCommutes(s: Operator, sent: string, rcvd: string, msg: TxMessage, hz: real, now: Clock)
    ensures QueueTx(SetRst(s, sent, rcvd), msg, hz, false, now) == SetRst(QueueTx(s, msg, hz, false, now), sent, rcvd)
  {}

  lemma NoRst(s: Operator)
    requires s.active.Some? && s.active.value.rstSent == "" && s.active.value.rstRcvd == ""
    ensures SetRst(s, "", "") == s
  {}

  lemma AnswerIncomingOpens(
    s: Operator, call: string, grid: string, hz: real, rxReport: string, snr: int, cycle: CycleTag, skipGrid: bool,
    now: Clock)
    ensures var (third, sent, rcvd) := ReplyThird(s.station, rxReport, snr, skipGrid);
            AnswerIncoming(s, call, grid, hz, rxReport, snr, cycle, skipGrid, now)
            == Opened(s, IncomingCall, call, grid, HeardPeriod(cycle, now), sent, rcvd, third, hz, hz, now)
  {
    var b := BeginQso(s, IncomingCall, call, grid, hz, HeardPeriod(cycle, now), now).(defaultHz := hz);
    var (third, sent, rcvd) := ReplyThird(s.station, rxReport, snr, skipGrid);
    var m := Message(call, s.station.me, third);
    RstCommutes(b, sent, rcvd, m, hz, now);
    if sent == "" && rcvd == "" { NoRst(QueueTx(b, m, hz, false, now)); }
  }

  lemma AnswerIncomingGood(
    s: Operator, call: string, grid: string, hz: real, rxReport: string, snr: int, cycle: CycleTag, skipGrid: bool,
    now: Clock)
    requires Inv(s) && s.active.None?
    ensures var s' := AnswerIncoming(s, call, grid, hz, rxReport, snr, cycle, skipGrid, now);
            Good(s, s', now.mono) && s'.active.Some? && s.epoch < s'.epoch && s'.hist.begun == s.hist.begun + 1
  {
    var (third, sent, rcvd) := ReplyThird(s.station, rxReport, snr, skipGrid);
    OpenedGood(s, IncomingCall, call, grid, HeardPeriod(cycle, now), sent, rcvd, third, hz, hz, now);
    AnswerIncomingOpens(s, call, grid, hz, rxReport, snr, cycle, skipGrid, now);
  }

  lemma FlushIncomingGood(s: Operator, now: Clock)
    requires Inv(s)
    ensures var (s', flushed) := FlushIncoming(s, now);
            && Good(s, s', now.mono)
            && s'.active.Some? == (flushed || s.active.Some?)
            && (s.active.Some? ==> !flushed && s' == s.(inBuf := []))
  {
    var s1 := s.(inBuf := []);
    EditGood(s, s1, now.mono);
    var buf := Prune(s.inBuf, now.wall);
    if buf != [] && s.active.None? && PickBest(buf).Some? {
      var b := PickBest(buf).value;
      AnswerIncomingGood(s1, b.call, b.grid, b.audioHz, "", b.snr, b.cycle, true, now);
      GoodTrans(s, s1, FlushIncoming(s, now).0, now.mono);
    }
  }

  lemma FlushCqGood(s: Operator, now: Clock)
    requires Inv(s)
    ensures var (s', flushed) := FlushCq(s, now);
            && Good(s, s', now.mono)
            && (s'.active.Some? ==> flushed || s.active.Some?)
            && (s.active.Some? ==> !flushed && s' == s.(cqBuf := []))
  {
    var buf := Prune(s.cqBuf, now.wall);
    if buf == [] || s.active.Some? {
      EditGood(s, s.(cqBuf := []), now.mono);
    } else {
      var s1 := s.(cqBuf := [], cooldown := DropExpired(s.cooldown, KeysOf(buf), now.mono));
      EditGood(s, s1, now.mono);
      var best := PickBest(Eligible(buf, s.cooldown, now.mono));
      if best.Some? {
        var b := best.value;
        AnswerCqGood(s1, b.call, b.grid, b.audioHz, b.snr, b.cycle, now);
        GoodTrans(s, s1, FlushCq(s, now).0, now.mono);
      }
    }
  }

  // --------------------------------------------------------- incoming calls

  lemma BufferScoredGood(s: Operator, call: string, r: Report, grid: string, km: Option<real>, now: Clock)
    requires Inv(s)
    ensures Good(s, BufferScored(s, call, r, grid, km, now).0, now.mono)
    ensures BufferScored(s, call, r, grid, km, now).0.active == s.active
  {
    EditGood(s, BufferScored(s, call, r, grid, km, now).0, now.mono);
  }

  lemma NoteIntelGood(s: Operator, call: string, grid: string, snr: int, km: Option<real>, mono: real)
    requires Inv(s)
    ensures Good(s, NoteIntel(s, call, grid, snr, km), mono)
    ensures NoteIntel(s, call, grid, snr, km).active == s.active
  {
    EditGood(s, NoteIntel(s, call, grid, snr, km), mono);
  }

  lemma AnswerCallerGood(s: Operator, third: string, r: Report, call: string, grid: string, km: Option<real>,
    now: Clock)
    requires Inv(s) && s.active.None?
    ensures Good(s, AnswerCaller(s, third, r, call, grid, km, now).0, now.mono)
  {
    EditGood(s, s, now.mono);
    if IsReport(third) && !IsRReport(third) {
      AnswerIncomingGood(s, call, grid, r.audioHz, third, r.snr, r.cycle, false, now);
    } else if !IsGridToken(third) && grid == "" {
    } else if s.cqOnly {
      BufferScoredGood(s, call, r, grid, km, now);
    } else {
      var g := if grid != "" then grid else third;
      AnswerIncomingGood(s, call, g, r.audioHz, "", r.snr, r.cycle, PrefersFastReport(s) && Grid4Upper(g) != "", now);
    }
  }

  lemma ProcessIncomingGood(s: Operator, third: string, r: Report, call: string, now: Clock)
    requires Inv(s) && s.active.None?
    ensures Good(s, ProcessIncoming(s, third, r, call, now).0, now.mono)
  {
    EditGood(s, s, now.mono);
    var (grid, km) := ResolveGridDist(s, r, call, third);
    var s1 := NoteIntel(s, call, grid, r.snr, km);
    NoteIntelGood(s, call, grid, r.snr, km, now.mono);
    AnswerCallerGood(s1, third, r, call, grid, km, now);
    GoodTrans(s, s1, AnswerCaller(s1, third, r, call, grid, km, now).0, now.mono);
  }

  lemma DropActiveGood(s: Operator, mono: real)
    requires Inv(s)
    ensures Good(s, DropActive(s), mono)
  {
    var s' := DropActive(s);
    forall i | 0 <= i < |s'.queue| ensures ItemOk(s', s'.queue[i]) { assert ItemOk(s, s.queue[i]); }
  }

  lemma PreemptOrBufferGood(s: Operator, t: Triplet, r: Report, incoming: string, now: Clock)
    requires Inv(s)
    ensures Good(s, PreemptOrBuffer(s, t, r, incoming, now).0, now.mono)
  {
    var s' := PreemptOrBuffer(s, t, r, incoming, now).0;
    EditGood(s, s, now.mono);
    if ShouldPreempt(s, incoming, r.snr) {
      var s1 := if s.active.Some? && s.active.value.remote != incoming then DropActive(s) else s;
      DropActiveGood(s, now.mono);
      if s1.active.None? {
        ProcessIncomingGood(s1, t.third, r, incoming, now);
        GoodTrans(s, s1, s', now.mono);
      }
    } else {
      EditGood(s, s', now.mono);
    }
  }

  lemma AnswerOrDeferCqGood(s: Operator, call: string, r: Report, grid: string, km: Option<real>, now: Clock)
    requires Inv(s) && s.active.None?
    ensures Good(s, AnswerOrDeferCq(s, call, r, grid, km, now), now.mono)
  {
    if s.station.pro.enabled && s.station.pro.DefersCqPick() {
      EditGood(s, AnswerOrDeferCq(s, call, r, grid, km, now), now.mono);
    } else {
      AnswerCqGood(s, call, grid, r.audioHz, r.snr, r.cycle, now);
    }
  }

  lemma MaybeAnswerCqGood(s: Operator, t: Triplet, r: Report, now: Clock)
    requires Inv(s)
    ensures Good(s, MaybeAnswerCq(s, t, r, now), now.mono)
  {
    EditGood(s, s, now.mono);
    if s.active.None? {
      var s0 := AskCooldown(s, t.callB, now);
      EditGood(s, s0, now.mono);
      var (grid, km) := ResolveGridDist(s0, r, t.callB, t.third);
      var s1 := NoteIntel(s0, t.callB, grid, r.snr, km);
      NoteIntelGood(s0, t.callB, grid, r.snr, km, now.mono);
      AnswerOrDeferCqGood(s1, t.callB, r, grid, km, now);
      var s2 := AnswerOrDeferCq(s1, t.callB, r, grid, km, now);
      GoodTrans(s0, s1, s2, now.mono);
      GoodTrans(s, s0, s2, now.mono);
    }
  }

  lemma HandleUnclaimedGood(s: Operator, t: Triplet, r: Report, now: Clock)
    requires Inv(s)
    ensures Good(s, HandleUnclaimed(s, t, r, now), now.mono)
  {
    EditGood(s, s, now.mono);
    if t.IsCq() { MaybeAnswerCqGood(s, t, r, now); }
    else if s.active.None? { ProcessIncomingGood(s, t.third, r, t.callA, now); }
  }

  lemma HandleOtherGood(s: Operator, t: Triplet, r: Report, now: Clock)
    requires Inv(s)
    ensures Good(s, HandleOther(s, t, r, now), now.mono)
  {
    var incoming := DetectIncoming(s, t);
    if incoming.None? {
      HandleUnclaimedGood(s, t, r, now);
    } else {
      var (s1, handled) := PreemptOrBuffer(s, t, r, incoming.value, now);
      PreemptOrBufferGood(s, t, r, incoming.value, now);
      HandleUnclaimedGood(s1, t, r, now);
      GoodTrans(s, s1, HandleUnclaimed(s1, t, r, now), now.mono);
    }
  }

  // ---------------------------------------------------- the active contact

  /** The log gained exactly the record of the contact that was active. */
  predicate Logged(s: Operator, s': Operator) {
    && s.active.Some? && s'.active.None?
    && |s'.hist.log| == |s.hist.log| + 1 && s'.hist.log[..|s.hist.log|] == s.hist.log
    && var rec := s'.hist.log[|s.hist.log|];
    && rec.id == s.active.value.id && rec.call == s.active.value.remote && rec.timeOn == s.active.value.timeOn
    && rec.hz == s.active.value.audioHz
  }

  lemma FinishQsoMoves(s: Operator, now: Clock)
    requires Inv(s) && s.active.Some?
    ensures var s' := FinishQso(s, now);
            Inv(s') && Move(s, s', now.mono) && Quiet(s, s') && Logged(s, s') && s'.hist.abandons == s.hist.abandons
            && CallKey(s.active.value.remote) !in s'.cooldown
  {
    var s' := FinishQso(s, now);
    forall i | 0 <= i < |s'.queue| ensures ItemOk(s', s'.queue[i]) { assert ItemOk(s, s.queue[i]); }
    assert CallKey(s'.hist.log[|s.hist.log|].call) == CallKey(s.active.value.remote);
  }

  /** A new message within the contact, noting what was heard with it. */
  lemma SendMoves(s: Operator, q: ActiveQso, phase: Phase, third: string, now: Clock)
    requires Inv(s) && s.active.Some? && (phase == Active || phase == Closing)
    requires var o := s.active.value; q == o.(grid := q.grid, rstSent := q.rstSent, rstRcvd := q.rstRcvd)
    requires s.phase == Closing ==> phase == Closing
    ensures var s' := QueueTx(s.(active := Some(q)), Message(q.remote, s.station.me, third), q.audioHz, false,
            now).(phase := phase);
            && Inv(s') && Move(s, s', now.mono) && CqStill(s, s') && Fresh0(s, s')
            && s'.active == Some(q.(cycles := 0)) && s'.hist == s.hist && s.epoch < s'.epoch
  {}

  /** What one decode may do to the contact in progress. */
  predicate Heard(s: Operator, s': Operator, t: Triplet, mono: real) {
    && Inv(s') && Move(s, s', mono) && Quiet(s, s') && ClosesOnly(s, s', t)
    && s'.hist.abandons == s.hist.abandons
    && (s'.hist.log == s.hist.log || (Confirms(s, t) && Logged(s, s')))
  }

  lemma PartnerGridHeard(s: Operator, t: Triplet, snr: int, now: Clock)
    requires Inv(s) && s.active.Some?
    ensures Heard(s, PartnerGrid(s, t.third, snr, now), t, now.mono)
  {
    var o := s.active.value;
    var q := o.(grid := Prefix4(t.third));
    GridNoted(s, Prefix4(t.third), now.mono);
    if o.rstSent == "" {
      SendMoves(s, q.(rstSent := SnrText(snr)), s.phase, SnrText(snr), now);
      assert PartnerGrid(s, t.third, snr, now)
        == QueueTx(s.(active := Some(q.(rstSent := SnrText(snr)))), Message(o.remote, s.station.me, SnrText(snr)),
          o.audioHz, false, now);
    }
  }

  lemma PartnerReportHeard(s: Operator, t: Triplet, snr: int, now: Clock)
    requires Inv(s) && s.active.Some?
    requires IsReport(t.third) && !IsRReport(t.third)
    ensures Heard(s, PartnerReport(s, t.third, snr, now), t, now.mono)
  {
    var o := s.active.value;
    EditGood(s, s, now.mono);
    if o.rstRcvd == "" {
      RstNonEmpty(t.third);
      var q := o.(rstSent := if o.rstSent == "" then SnrText(snr) else o.rstSent, rstRcvd := RstFromReport(t.third));
      SendMoves(s, q, s.phase, "R" + SnrText(snr), now);
    }
  }

  lemma PartnerRogerHeard(s: Operator, t: Triplet, now: Clock)
    requires Inv(s) && Confirms(s, t)
    ensures Heard(s, PartnerRoger(s, now), t, now.mono)
  {
    EditGood(s, s, now.mono);
    if s.phase != Closing { SendMoves(s, s.active.value, Closing, "RR73", now); }
  }

  lemma HandleActiveHeard(s: Operator, t: Triplet, r: Report, now: Clock)
    requires Inv(s) && s.active.Some?
    ensures var (s', handled) := HandleActive(s, t, r, now);
            Heard(s, s', t, now.mono) && (!handled ==> s' == s)
  {
    var third := t.third;
    EditGood(s, s, now.mono);
    if !(!(IsRr73(third) || Is73(third)) && IsSelfEcho(s, t)) && !IsMyGrid(third, s.station)
       && BetweenUs(t, s.station.me, s.active.value.remote) {
      if IsGridToken(third) { PartnerGridHeard(s, t, r.snr, now); }
      else if IsReport(third) && !IsRReport(third) { PartnerReportHeard(s, t, r.snr, now); }
      else if IsRReport(third) || IsRrr(third) { PartnerRogerHeard(s, t, now); }
      else if IsRr73(third) || Is73(third) { ByeLogs(s, now); }
    }
  }

  lemma GridNoted(s: Operator, grid: string, mono: real)
    requires Inv(s) && s.active.Some?
    ensures Good(s, s.(active := Some(s.active.value.(grid := grid))), mono)
  {
    var s' := s.(active := Some(s.active.value.(grid := grid)));
    forall i | 0 <= i < |s'.queue| ensures ItemOk(s', s'.queue[i]) { assert ItemOk(s, s.queue[i]); }
  }

  lemma ByeLogs(s: Operator, now: Clock)
    requires Inv(s) && s.active.Some?
    ensures var o, s' := s.active.value, PartnerBye(s, now);
            && Inv(s') && Move(s, s', now.mono) && Quiet(s, s') && Logged(s, s') && s'.hist.abandons == s.hist.abandons
            && s.epoch < s'.epoch && s'.lastTx == Some(Message(o.remote, s.station.me, "73"))
            && s'.queue == [TxItem(s'.lastTx.value, Snap(o.audioHz), o.txPeriod, s'.epoch)]
  {
    var o := s.active.value;
    var s1 := Drain(s).(queuedSlot := None);
    assert Inv(s1) && Move(s, s1, now.mono);
    SendMoves(s1, o, s1.phase, "73", now);
    var s2 := QueueTx(s1, Message(o.remote, s.station.me, "73"), o.audioHz, false, now);
    MoveTrans(s, s1, s2, now.mono);
    FinishQsoMoves(s2, now);
    MoveTrans(s, s2, FinishQso(s2, now), now.mono);
  }

  lemma GoodIsHeard(s: Operator, s1: Operator, s': Operator, t: Triplet, mono: real)
    requires Inv(s) && Good(s, s1, mono) && s1.active == s.active && s1.phase == s.phase
    requires Heard(s1, s', t, mono)
    ensures Heard(s, s', t, mono)
  {
    MoveTrans(s, s1, s', mono);
    QuietTrans(s, s1, s', mono);
  }

  lemma GoodHeard(s: Operator, s': Operator, t: Triplet, mono: real)
    requires Inv(s) && Good(s, s', mono)
    ensures Heard(s, s', t, mono)
  {}

  lemma HandleTripletHeard(s: Operator, t: Triplet, r: Report, now: Clock)
    requires Inv(s)
    ensures Heard(s, HandleTriplet(s, t, r, now), t, now.mono)
  {
    HandleOtherGood(s, t, r, now);
    GoodHeard(s, HandleOther(s, t, r, now), t, now.mono);
    if s.active.Some? { HandleActiveHeard(s, t, r, now); }
  }

  /** A decode raises exactly when an armed operator hears a fresh message that is
      the single word CQ; nothing has changed then. */
  lemma DecodeRaisesExactly(s: Operator, r: Report, now: Clock)
    ensures DecodeRaises(s, r, now) <==>
              s.armed && (r.cycle.NoCycle? || Fresh(r.cycle, now.wall)) && Upper(Strip(r.message)) == "CQ"
    ensures DecodeRaises(s, r, now) ==> OnDecode(s, r, now) == s
  {
    ParserRaisesExactly(r.message);
  }

  /** The parser never raises on our own last message, which the echo test and the
      retry of RR73 parse, if our call has three characters. */
  lemma OwnMessageParses(s: Operator)
    requires Inv(s) && s.lastTx.Some?
    requires var me := s.station.me; |me| >= 3 && !IsSpace(me[0]) && !IsSpace(me[|me| - 1])
    ensures !TripletOf(s.lastTx.value).Raises?
  {
    match s.lastTx.value
    case CqMessage(de, grid) => DirectedParses("CQ", de, grid);
    case Message(to, de, third) => DirectedParses(to, de, third);
  }

  lemma OnDecodeCases(s: Operator, r: Report, t: Triplet, now: Clock)
    requires MessageTriplet(r.message) == Fields(t)
    ensures var s1, s' := AdoptCqHz(s, t, r), OnDecode(s, r, now);
            s' == s || s' == s1 || s' == HandleTriplet(s1, t, r, now)
  {}

  lemma AdoptGood(s: Operator, t: Triplet, r: Report, mono: real)
    requires Inv(s)
    ensures var s1 := AdoptCqHz(s, t, r); Good(s, s1, mono) && s1.active == s.active && s1.phase == s.phase
  {
    EditGood(s, AdoptCqHz(s, t, r), mono);
  }

  /** The effect of a decode whose three fields are t. */
  lemma OnDecodeHeard(s: Operator, r: Report, t: Triplet, now: Clock)
    requires Inv(s) && MessageTriplet(r.message) == Fields(t)
    ensures Heard(s, OnDecode(s, r, now), t, now.mono)
  {
    var s1 := AdoptCqHz(s, t, r);
    OnDecodeCases(s, r, t, now);
    AdoptGood(s, t, r, now.mono);
    if OnDecode(s, r, now) == s1 {
      GoodHeard(s, s1, t, now.mono);
    } else if OnDecode(s, r, now) == s {
      EditGood(s, s, now.mono);
      GoodHeard(s, s, t, now.mono);
    } else {
      HandleTripletHeard(s1, t, r, now);
      GoodIsHeard(s, s1, HandleTriplet(s1, t, r, now), t, now.mono);
    }
  }

  // ------------------------------------------------------------- the cycle

  lemma RetryMoves(s: Operator, a: ActiveQso, now: Clock)
    requires Inv(s) && s.active.Some? && s.lastTx.Some?
    requires a == s.active.value.(cycles := s.active.value.cycles + 1)
    ensures var s1 := s.(active := Some(a));
            var s' := QueueTx(s1, s.lastTx.value, a.audioHz, true, now);
            && Inv(s1) && Move(s, s1, now.mono)
            && Inv(s') && Move(s, s', now.mono) && s'.active == Some(a) && s'.hist == s.hist && CqStill(s, s')
            && s'.phase == s.phase
  {
    var s1 := s.(active := Some(a));
    var s' := QueueTx(s1, s.lastTx.value, a.audioHz, true, now);
    forall i | 0 <= i < |s1.queue| ensures ItemOk(s1, s1.queue[i]) { assert ItemOk(s, s.queue[i]); }
    forall i | 0 <= i < |s'.queue| ensures ItemOk(s', s'.queue[i]) {
      if i < |s.queue| { assert ItemOk(s, s.queue[i]); }
    }
  }

  /** The contact was given up: recorded, and its call is cooling down. */
  predicate GaveUp(s: Operator, s': Operator, mono: real) {
    && s.active.Some?
    && |s'.hist.abandons| == |s.hist.abandons| + 1
    && s'.hist.abandons[..|s.hist.abandons|] == s.hist.abandons
    && var rec := s'.hist.abandons[|s.hist.abandons|];
    && rec.id == s.active.value.id && rec.call == CallKey(s.active.value.remote)
    && rec.until == mono + s.station.pro.CooldownSec() as real
    && (rec.call != "" ==> rec.call in s'.cooldown && s'.cooldown[rec.call] == rec.until)
    && s'.hist.log == s.hist.log && s.epoch < s'.epoch
    && (s'.active.Some? ==> s'.active.value.id > s.active.value.id)
  }

  lemma AbandonMoves(s: Operator, now: Clock)
    requires Inv(s) && s.active.Some?
    ensures var s' := AbandonStuck(s, now);
            && Inv(s') && Move(s, s', now.mono) && GaveUp(s, s', now.mono) && CqStill(s, s') && Fresh0(s, s')
            && (s'.active.Some? ==> s'.phase == Active)
  {
    var o := s.active.value;
    var c := CallKey(o.remote);
    var rec := AbandonmentOf(o, s.station.pro, now);
    var s2 := Abandoned(s, now);
    assert s2.hist.abandons[|s.hist.abandons|] == rec;
    assert AbandonedSince(s, s2, c);
    assert Inv(s2) && Move(s, s2, now.mono) && GaveUp(s, s2, now.mono);
    FlushIncomingGood(s2, now);
    var s' := AbandonStuck(s, now);
    if s' != s2 {
      MoveTrans(s, s2, s', now.mono);
      FlushKeepsCooldown(s2, now);
    }
  }

  lemma FlushKeepsCooldown(s: Operator, now: Clock)
    ensures FlushIncoming(s, now).0.cooldown == s.cooldown
  {}

  /** An own-period cycle spends one retry, or ends the contact. */
  predicate Ticked(s: Operator, s': Operator, mono: real) {
    && s.active.Some?
    && (SameContact(s, s') ==>
        && s'.phase == s.phase
        && s'.active.value.(grid := "") == s.active.value.(grid := "", cycles := s.active.value.cycles + 1)
        && s'.active.value.cycles <= s.station.pro.MaxRetry())
    && (if SameContact(s, s') then s'.hist == s.hist
        else if s.phase == Closing then Logged(s, s') && s'.hist.abandons == s.hist.abandons
        else GaveUp(s, s', mono))
    && (s'.active.Some? && !SameContact(s, s') ==> s'.phase == Active)
  }

  predicate TickMoves(s: Operator, s': Operator, mono: real) {
    Inv(s') && Move(s, s', mono) && CqStill(s, s') && Fresh0(s, s') && Ticked(s, s', mono)
  }

  /** The state once the cycle has been counted against the contact. */
  function Counted(s: Operator): Operator
    requires s.active.Some?
  {
    s.(active := Some(s.active.value.(cycles := s.active.value.cycles + 1)))
  }

  lemma CountedMoves(s: Operator, now: Clock)
    requires Inv(s) && s.active.Some?
    ensures Inv(Counted(s)) && Move(s, Counted(s), now.mono)
  {
    RetryMoves(s, s.active.value.(cycles := s.active.value.cycles + 1), now);
  }

  lemma ActiveCycleCases(s: Operator, now: Clock)
    requires s.active.Some?
    ensures var s1, s' := Counted(s), ActiveCycle(s, now);
            if s1.active.value.cycles > s.station.pro.MaxRetry() then
              s' == (if s.phase == Closing then FinishQso(s1, now) else AbandonStuck(s1, now))
            else s' == s1 || (s.lastTx.Some? && s' == QueueTx(s1, s.lastTx.value, s1.active.value.audioHz, true, now))
  {}

  lemma ActiveCycleTicks(s: Operator, now: Clock)
    requires Inv(s) && s.active.Some?
    ensures TickMoves(s, ActiveCycle(s, now), now.mono)
  {
    ActiveCycleCases(s, now);
    CountedMoves(s, now);
    if Counted(s).active.value.cycles > s.station.pro.MaxRetry() {
      if s.phase == Closing { ClosingEnds(s, Counted(s), now); } else { ExchangeEnds(s, Counted(s), now); }
    } else {
      RetryTicks(s, now);
    }
  }

  lemma RetryTicks(s: Operator, now: Clock)
    requires Inv(s) && s.active.Some? && s.active.value.cycles < s.station.pro.MaxRetry() && s.lastTx.Some?
    ensures TickMoves(s, Counted(s), now.mono)
    ensures TickMoves(s, QueueTx(Counted(s), s.lastTx.value, s.active.value.audioHz, true, now), now.mono)
  {
    RetryMoves(s, s.active.value.(cycles := s.active.value.cycles + 1), now);
    StillTicking(s, Counted(s), now.mono);
    StillTicking(s, QueueTx(Counted(s), s.lastTx.value, s.active.value.audioHz, true, now), now.mono);
  }

  lemma StillTicking(s: Operator, s': Operator, mono: real)
    requires Inv(s) && s.active.Some? && s.active.value.cycles < s.station.pro.MaxRetry()
    requires Inv(s') && Move(s, s', mono) && s'.active == Counted(s).active && s'.hist == s.hist
    requires CqStill(s, s') && s'.phase == s.phase
    ensures TickMoves(s, s', mono)
  {}

  lemma ClosingEnds(s: Operator, s1: Operator, now: Clock)
    requires Inv(s) && Inv(s1) && Move(s, s1, now.mono) && s.active.Some? && s.phase == Closing
    requires s1 == Counted(s)
    ensures TickMoves(s, FinishQso(s1, now), now.mono)
  {
    FinishQsoMoves(s1, now);
    MoveTrans(s, s1, FinishQso(s1, now), now.mono);
  }

  lemma ExchangeEnds(s: Operator, s1: Operator, now: Clock)
    requires Inv(s) && Inv(s1) && Move(s, s1, now.mono) && s.active.Some? && s.phase != Closing
    requires s1 == Counted(s)
    ensures TickMoves(s, AbandonStuck(s1, now), now.mono)
  {
    AbandonMoves(s1, now);
    MoveTrans(s, s1, AbandonStuck(s1, now), now.mono);
  }

  lemma TickCqMoves(s: Operator, slot: int, now: Clock)
    requires Inv(s) && s.active.None?
    ensures var s' := TickCq(s, slot, now);
            && Inv(s') && Move(s, s', now.mono) && s'.active.None?
            && s'.hist == s.hist.(cqs := s'.hist.cqs) && s'.cqPeriod == s.cqPeriod && s'.lastCycle == s.lastCycle
            && s'.armed == s.armed
            && s'.cqBuf == s.cqBuf && s'.inBuf == s.inBuf && s'.cqOnly == s.cqOnly
            && (if s.cqWait > 0 then s'.cqWait == s.cqWait - 1 && s'.hist.cqs == s.hist.cqs
                else if s.cqPeriod == Some(slot) then s'.cqWait == s.station.cqRepeat && s'.hist.cqs == s.hist.cqs + 1
                else s'.cqWait == s.cqWait && s'.hist.cqs == s.hist.cqs)
  {
    var s' := TickCq(s, slot, now);
    forall i | 0 <= i < |s'.queue| ensures ItemOk(s', s'.queue[i]) {
      if s'.queue == s.queue { assert ItemOk(s, s.queue[i]); }
    }
  }

  lemma FlushBufferGood(s: Operator, now: Clock)
    requires Inv(s)
    ensures var (s', flushed) := FlushBuffer(s, now);
            && Good(s, s', now.mono)
            && (s.active.Some? ==> s'.active == s.active && s'.phase == s.phase && !flushed)
            && (s.active.None? && s'.active.Some? ==> flushed)
  {
    if s.cqOnly { FlushIncomingGood(s, now); } else { FlushCqGood(s, now); }
  }

  lemma FlushOnNewCycleGood(s: Operator, key: CycleTag, now: Clock)
    requires Inv(s)
    ensures var (s1, flushed) := FlushOnNewCycle(s, key, now);
            && s1.lastCycle == key
            && Good(s, s1.(lastCycle := s.lastCycle), now.mono)
            && Inv(s1) && Move(s, s1, now.mono)
            && (s.active.Some? ==> s1.active == s.active && s1.phase == s.phase && !flushed)
            && (s.active.None? && s1.active.Some? ==> flushed)
  {
    EditGood(s, s, now.mono);
    if key != s.lastCycle {
      FlushBufferGood(s, now);
      Relabelled(s, FlushBuffer(s, now).0, key, now.mono);
    }
  }

  lemma Relabelled(s: Operator, f: Operator, key: CycleTag, mono: real)
    requires Good(s, f, mono)
    ensures Inv(f.(lastCycle := key)) && Move(s, f.(lastCycle := key), mono)
    ensures f.lastCycle == s.lastCycle && f.(lastCycle := key).(lastCycle := s.lastCycle) == f
  {
    var s1 := f.(lastCycle := key);
    forall i | 0 <= i < |s1.queue| ensures ItemOk(s1, s1.queue[i]) { assert ItemOk(f, f.queue[i]); }
    SameHistory(s, f, s1, mono);
  }

  lemma SameHistory(s: Operator, f: Operator, s1: Operator, mono: real)
    requires Move(s, f, mono) && s1 == f.(lastCycle := s1.lastCycle)
    ensures Move(s, s1, mono)
  {
    forall c ensures LoggedSince(s, f, c) <==> LoggedSince(s, s1, c) {}
    forall c ensures AbandonedSince(s, f, c) <==> AbandonedSince(s, s1, c) {}
  }

  /** The call is armed and finds a contact active in its own period. */
  predicate OwnTick(s: Operator, now: Clock) {
    s.armed && s.active.Some? && PeriodAt(now.wall) == s.active.value.txPeriod
  }

  /** What a cycle call does to a consistent state. */
  predicate CycleMoves(s: Operator, s': Operator, now: Clock) {
    && Inv(s') && Move(s, s', now.mono) && Fresh0(s, s')
    && (if OwnTick(s, now) then Ticked(s, s', now.mono)
        else Progress(s, s') && s'.hist.log == s.hist.log && s'.hist.abandons == s.hist.abandons && PhaseKept(s, s'))
  }

  lemma OnCycleCases(s: Operator, key: CycleTag, now: Clock)
    requires s.armed
    ensures var (s1, flushed) := FlushOnNewCycle(s, key, now);
            var slot := PeriodAt(now.wall);
            OnCycle(s, key, now) ==
              if s1.active.Some? then
                if slot == s1.active.value.txPeriod && !(flushed && s.active.None?) then ActiveCycle(s1, now) else s1
              else if key != s.lastCycle then TickCq(WithCqPeriod(s1, slot), slot, now) else s1
  {}

  function WithCqPeriod(s: Operator, slot: int): Operator {
    if s.cqPeriod.None? then s.(cqPeriod := Some(slot)) else s
  }

  lemma FlushedMoves(s: Operator, key: CycleTag, now: Clock)
    requires Inv(s)
    ensures var (s1, flushed) := FlushOnNewCycle(s, key, now);
            && Inv(s1) && Move(s, s1, now.mono)
            && (!OwnTick(s, now) ==> CycleMoves(s, s1, now))
            && (s.active.Some? ==> s1.active == s.active && s1.phase == s.phase && s1.hist == s.hist && !flushed)
            && (s1.active.None? ==> s.active.None? && s1.hist == s.hist)
            && (s.active.None? && s1.active.Some? ==> flushed)
  {
    FlushOnNewCycleGood(s, key, now);
    FlushHistory(s, key, now);
    GoodCycle(s, FlushOnNewCycle(s, key, now).0, now);
  }

  /** Quiet changes are what a cycle call may do outside the contact's own period. */
  lemma GoodCycle(s: Operator, s1: Operator, now: Clock)
    requires Inv(s) && Inv(s1) && Move(s, s1, now.mono) && Good(s, s1.(lastCycle := s.lastCycle), now.mono)
    ensures !OwnTick(s, now) ==> CycleMoves(s, s1, now)
  {}

  lemma FlushHistory(s: Operator, key: CycleTag, now: Clock)
    ensures var s1 := FlushOnNewCycle(s, key, now).0; s1.active.None? || s.active.Some? ==> s1.hist == s.hist
  {}


  lemma OnCycleMoves(s: Operator, key: CycleTag, now: Clock)
    requires Inv(s)
    ensures CycleMoves(s, OnCycle(s, key, now), now)
  {
    if !s.armed {
      EditGood(s, s, now.mono);
    } else {
      OnCycleCases(s, key, now);
      FlushedMoves(s, key, now);
      var s1 := FlushOnNewCycle(s, key, now).0;
      if OwnTick(s, now) {
        OwnCycleMoves(s, s1, now);
      } else if s1.active.None? && key != s.lastCycle {
        IdleCycleMoves(s, s1, PeriodAt(now.wall), now);
      }
    }
  }

  lemma OwnCycleMoves(s: Operator, s1: Operator, now: Clock)
    requires Inv(s) && Inv(s1) && Move(s, s1, now.mono) && OwnTick(s, now)
    requires s1.active == s.active && s1.phase == s.phase && s1.hist == s.hist
    ensures CycleMoves(s, ActiveCycle(s1, now), now)
  {
    ActiveCycleTicks(s1, now);
    MoveTrans(s, s1, ActiveCycle(s1, now), now.mono);
  }

  lemma IdleCycleMoves(s: Operator, s1: Operator, slot: int, now: Clock)
    requires Inv(s) && Inv(s1) && Move(s, s1, now.mono) && !OwnTick(s, now)
    requires s1.active.None? && s1.hist == s.hist
    ensures CycleMoves(s, TickCq(WithCqPeriod(s1, slot), slot, now), now)
  {
    var s2 := WithCqPeriod(s1, slot);
    assert QueueOk(s2) by {
      forall i | 0 <= i < |s2.queue| ensures ItemOk(s2, s2.queue[i]) { assert ItemOk(s1, s1.queue[i]); }
    }
    CqPeriodChosen(s, s1, s2, now.mono);
    TickCqMoves(s2, slot, now);
    MoveTrans(s, s2, TickCq(s2, slot, now), now.mono);
  }

  lemma CqPeriodChosen(s: Operator, s1: Operator, s2: Operator, mono: real)
    requires Move(s, s1, mono) && s2 == s1.(cqPeriod := s2.cqPeriod)
    ensures Move(s, s2, mono)
  {
    forall c ensures LoggedSince(s, s1, c) <==> LoggedSince(s, s2, c) {}
    forall c ensures AbandonedSince(s, s1, c) <==> AbandonedSince(s, s2, c) {}
  }

  // -------------------------------------------------------------- commands

  lemma AbortMoves(s: Operator, keepArmed: bool, mono: real)
    requires Inv(s)
    ensures var s' := HaltTransmission(s, keepArmed);
            Inv(s') && Move(s, s', mono) && s'.active.None? && s.epoch < s'.epoch && s'.queue == []
            && s'.hist.log == s.hist.log && s'.hist.abandons == s.hist.abandons
    ensures AbortQso(s) == HaltTransmission(s, true)
  {}

  lemma SetArmedMoves(s: Operator, on: bool, mono: real)
    requires Inv(s)
    ensures var s' := SetArmed(s, on);
            Inv(s') && Move(s, s', mono) && s'.hist.log == s.hist.log && s'.hist.abandons == s.hist.abandons
            && (!on ==> s'.active.None? && s.epoch < s'.epoch && s'.queue == [])
            && (on ==> s'.active == s.active && s'.phase == s.phase)
  {
    var s' := SetArmed(s, on);
    forall i | 0 <= i < |s'.queue| ensures ItemOk(s', s'.queue[i]) { if on { assert ItemOk(s, s.queue[i]); } }
  }

  /** Engaging a call is opening a contact, with or without its report. */
  lemma FirstSends(s: Operator, call: string, hz: real, rxReport: string, rxSnr: int, now: Clock)
    ensures var g, heard, rst := GridFor(s.intel, call), PeriodAt(now.wall), SnrText(rxSnr);
            SendFirst(BeginQso(s, Engaged, call, g, hz, heard, now), call, hz, rxReport, rxSnr, now) ==
            if rxReport != "" && IsReport(rxReport) then
              Opened(s, Engaged, call, g, heard, rst, RstFromReport(rxReport), "R" + rst, hz, s.defaultHz, now)
            else Opened(s, Engaged, call, g, heard, "", "", s.station.grid4, hz, s.defaultHz, now)
  {}

  lemma SendFirstGood(s: Operator, call: string, hz: real, rxReport: string, rxSnr: int, now: Clock)
    requires Inv(s) && s.active.None?
    ensures var b := BeginQso(s, Engaged, call, GridFor(s.intel, call), hz, PeriodAt(now.wall), now);
            Good(s, SendFirst(b, call, hz, rxReport, rxSnr, now), now.mono)
  {
    var g := GridFor(s.intel, call);
    var heard, rst := PeriodAt(now.wall), SnrText(rxSnr);
    FirstSends(s, call, hz, rxReport, rxSnr, now);
    OpenedGood(s, Engaged, call, g, heard, rst, RstFromReport(rxReport), "R" + rst, hz, s.defaultHz, now);
    OpenedGood(s, Engaged, call, g, heard, "", "", s.station.grid4, hz, s.defaultHz, now);
  }

  lemma EngageMoves(s: Operator, call: string, hz: real, rxReport: string, rxSnr: int, now: Clock)
    requires Inv(s)
    ensures var s' := EngageCall(s, call, hz, rxReport, rxSnr, now);
            && Good(s, s', now.mono) && s.epoch < s'.epoch && s'.cooldown == s.cooldown
            && s'.active.Some? && s'.active.value.id == s.hist.begun + 1 && s'.active.value.how == Engaged
            && s'.active.value.remote == CallKey(CallKey(call)) && s'.active.value.audioHz == hz
            && s'.active.value.txPeriod == OppositePeriod(PeriodAt(now.wall))
  {
    var s0 := DropActive(s);
    DropActiveGood(s, now.mono);
    var s1 := ClearBuffers(s0);
    EditGood(s0, s1, now.mono);
    GoodTrans(s, s0, s1, now.mono);
    SendFirstGood(s1, CallKey(call), hz, rxReport, rxSnr, now);
    GoodTrans(s, s1, EngageCall(s, call, hz, rxReport, rxSnr, now), now.mono);
    OpenedFields(s1, CallKey(call), hz, rxReport, rxSnr, now);
  }

  lemma OpenedFields(s: Operator, call: string, hz: real, rxReport: string, rxSnr: int, now: Clock)
    ensures var s' := SendFirst(BeginQso(s, Engaged, call, GridFor(s.intel, call), hz, PeriodAt(now.wall), now),
            call, hz, rxReport, rxSnr, now);
            && s.epoch < s'.epoch && s'.cooldown == s.cooldown
            && s'.active.Some? && s'.active.value.id == s.hist.begun + 1 && s'.active.value.how == Engaged
            && s'.active.value.remote == CallKey(call) && s'.active.value.audioHz == hz
            && s'.active.value.txPeriod == OppositePeriod(PeriodAt(now.wall))
  {
    FirstSends(s, call, hz, rxReport, rxSnr, now);
  }
}

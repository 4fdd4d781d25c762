/** What single calls do, told by what is heard, known and sent rather than by the
    steps that do it. */
module OperatorEffects {
  import opened Base
  import opened Protocol
  import opened SlotClock
  import opened OperatorTypes
  import opened OperatorSteps
  import opened OperatorProofs
  import opened OperatorOrigins

  // ------------------------------------------------------------------ retries

  /** The message is the closing one. */
  predicate SaysRr73(m: TxMessage) {
    MessageTriplet(Text(m)).Fields? && Upper(MessageTriplet(Text(m)).value.third) == "RR73"
  }

  /** One more retry is counted, and the last message is queued again unless its slot
      already holds one; while closing, only if that message is RR73. */
  predicate Retried(s: Operator, s': Operator, now: Clock)
    requires s.active.Some? && s.lastTx.Some?
  {
    var o, m := s.active.value, s.lastTx.value;
    var slot, again := TxSlotStart(o.txPeriod, now.wall), s.phase != Closing || SaysRr73(m);
    && s'.active == Some(o.(cycles := o.cycles + 1))
    && s'.lastTx == s.lastTx && s'.phase == s.phase && s'.epoch == s.epoch
    && s'.queue == (if again && s.queuedSlot != Some(slot)
                    then s.queue + [TxItem(m, Snap(o.audioHz), o.txPeriod, s.epoch)] else s.queue)
    && s'.queuedSlot == if again then Some(slot) else s.queuedSlot
  }

  predicate WithinRetries(s: Operator) { s.active.Some? && s.active.value.cycles < s.station.pro.MaxRetry() }

  lemma CountedIsRetried(s: Operator, now: Clock)
    requires WithinRetries(s) && s.lastTx.Some?
    ensures var s' := ActiveCycle(s, now);
            Retried(s, s', now) && s' == s.(active := s'.active, queue := s'.queue, queuedSlot := s'.queuedSlot)
  {}

  /** The callers kept that a cycle call leaves during a contact: in CQ mode a new
      cycle clears them. */
  function CallersLeft(s: Operator, key: CycleTag): seq<Candidate> {
    if s.cqOnly && key != s.lastCycle then [] else s.inBuf
  }

  function CqsLeft(s: Operator, key: CycleTag): seq<Candidate> {
    if !s.cqOnly && key != s.lastCycle then [] else s.cqBuf
  }

  lemma FlushSparesContact(s: Operator, key: CycleTag, now: Clock)
    requires s.active.Some?
    ensures var (s1, flushed) := FlushOnNewCycle(s, key, now);
            s1 == s.(cqBuf := CqsLeft(s, key), inBuf := CallersLeft(s, key), lastCycle := key)
  {}

  /** Within the limit every armed call in the contact's own period sends the last
      message again, once per slot; a call in the other period sends nothing. */
  lemma RetryIsSent(s: Operator, key: CycleTag, now: Clock)
    requires s.armed && WithinRetries(s) && s.lastTx.Some?
    ensures var s' := OnCycle(s, key, now);
            var s1 := s.(cqBuf := CqsLeft(s, key), inBuf := CallersLeft(s, key), lastCycle := key);
            if PeriodAt(now.wall) == s.active.value.txPeriod then
              Retried(s, s', now) && s' == s1.(active := s'.active, queue := s'.queue, queuedSlot := s'.queuedSlot)
            else s' == s1
  {
    OnCycleCases(s, key, now);
    FlushSparesContact(s, key, now);
    var s1 := FlushOnNewCycle(s, key, now).0;
    CountedIsRetried(s1, now);
    RetriedFrom(s, s1, ActiveCycle(s1, now), now);
  }

  lemma RetriedFrom(s: Operator, s1: Operator, s': Operator, now: Clock)
    requires s.active.Some? && s.lastTx.Some?
    requires s1 == s.(cqBuf := s1.cqBuf, inBuf := s1.inBuf, lastCycle := s1.lastCycle) && Retried(s1, s', now)
    ensures Retried(s, s', now)
  {}

  // ---------------------------------------------------- the partner's messages

  /** Our own last message, its calls in either order. */
  predicate OwnWords(s: Operator, t: Triplet) {
    && s.lastTx.Some? && MessageTriplet(Text(s.lastTx.value)).Fields?
    && var l := MessageTriplet(Text(s.lastTx.value)).value;
    t == l || t == Triplet(l.callB, l.callA, l.third)
  }

  predicate BetweenCalls(t: Triplet, a: string, b: string) {
    (t.callA == a && t.callB == b) || (t.callA == b && t.callB == a)
  }

  predicate Bye(third: string) { Upper(third) == "RR73" || Upper(third) == "73" }

  /** A decode the operator listens to while in a contact. */
  predicate Overhears(s: Operator, r: Report, t: Triplet, now: Clock) {
    && Listens(s, r, now) && MessageTriplet(r.message) == Fields(t)
    && s.active.Some? && (s.phase == Active || s.phase == Closing)
  }

  /** Hearing ourselves in a contact changes nothing. */
  lemma EchoIsIgnored(s: Operator, r: Report, t: Triplet, now: Clock)
    requires Overhears(s, r, t, now) && OwnWords(s, t) && !Bye(t.third)
    ensures OnDecode(s, r, now) == s
  {
    ListenedTo(s, r, t, now);
    EchoIsClaimed(s, r, t, now);
  }

  lemma EchoIsClaimed(s: Operator, r: Report, t: Triplet, now: Clock)
    requires s.active.Some? && OwnWords(s, t) && !Bye(t.third)
    ensures HandleActive(s, t, r, now) == (s, true)
  {}

  /** The two calls of the contact, the partner's first, or ours first in a message
      that is no grid. */
  predicate PartnersWords(s: Operator, t: Triplet) {
    && s.active.Some?
    && BetweenCalls(t, s.station.me, CallKey(s.active.value.remote))
    && (t.callA == s.station.me ==> t.callB == s.active.value.remote && !IsGridToken(t.third))
    && (Bye(t.third) || !OwnWords(s, t))
    && !(IsGridToken(t.third) && Prefix4(t.third) == s.station.grid4)
  }

  /** The state after the partner of contact `o` is sent `third`: it is the latest
      message, alone in the queue under a new epoch, and retries start over. */
  function Said(s: Operator, o: ActiveQso, third: string, now: Clock): Operator {
    var m := Message(o.remote, s.station.me, third);
    s.(active := Some(o.(cycles := 0)), lastTx := Some(m), epoch := s.epoch + 1,
       queue := [TxItem(m, Snap(o.audioHz), o.txPeriod, s.epoch + 1)],
       queuedSlot := Some(TxSlotStart(o.txPeriod, now.wall)))
  }

  lemma HeardByExchange(s: Operator, r: Report, t: Triplet, now: Clock)
    requires Overhears(s, r, t, now) && PartnersWords(s, t)
    requires IsGridToken(t.third) || IsReport(t.third) || IsRrr(t.third) || Bye(t.third)
    ensures HandleActive(s, t, r, now).1 && OnDecode(s, r, now) == HandleActive(s, t, r, now).0
  {
    if r.cycle.Slot? { FreshnessGap(r.cycle.start, now.wall); }
    assert AdoptCqHz(s, t, r) == s;
    assert !IgnoresMeFirst(s, t);
  }

  lemma SaidIsQueued(s: Operator, o: ActiveQso, third: string, now: Clock)
    ensures QueueTx(s.(active := Some(o)), Message(o.remote, s.station.me, third), o.audioHz, false, now)
         == Said(s, o, third, now)
  {}

  /** The partner's grid is noted, and the first time answered with our report. */
  lemma GridEffect(s: Operator, r: Report, t: Triplet, now: Clock)
    requires Overhears(s, r, t, now) && PartnersWords(s, t) && IsGridToken(t.third)
    ensures var o := s.active.value.(grid := Prefix4(t.third));
            OnDecode(s, r, now) == if o.rstSent != "" then s.(active := Some(o))
                                   else Said(s, o.(rstSent := SnrText(r.snr)), SnrText(r.snr), now)
  {
    HeardByExchange(s, r, t, now);
    var o := s.active.value.(grid := Prefix4(t.third));
    assert HandleActive(s, t, r, now).0 == PartnerGrid(s, t.third, r.snr, now);
    SaidIsQueued(s, o, SnrText(r.snr), now);
  }

  /** The partner's report is noted and answered with ours marked R, the first time. */
  lemma ReportEffect(s: Operator, r: Report, t: Triplet, now: Clock)
    requires Overhears(s, r, t, now) && PartnersWords(s, t)
    requires !IsGridToken(t.third) && IsReport(t.third) && !IsRReport(t.third)
    ensures var o := s.active.value;
            OnDecode(s, r, now) ==
              if o.rstRcvd != "" then s
              else Said(s, o.(rstSent := if o.rstSent == "" then SnrText(r.snr) else o.rstSent,
                              rstRcvd := RstFromReport(t.third)), "R" + SnrText(r.snr), now)
  {
    HeardByExchange(s, r, t, now);
    var o := s.active.value;
    assert HandleActive(s, t, r, now).0 == PartnerReport(s, t.third, r.snr, now);
    SaidIsQueued(s, o.(rstSent := if o.rstSent == "" then SnrText(r.snr) else o.rstSent,
                       rstRcvd := RstFromReport(t.third)), "R" + SnrText(r.snr), now);
  }

  /** An R-report or RRR is answered with RR73 and closes the exchange, once. */
  lemma RogerEffect(s: Operator, r: Report, t: Triplet, now: Clock)
    requires Overhears(s, r, t, now) && PartnersWords(s, t)
    requires !IsGridToken(t.third) && (IsRReport(t.third) || Upper(t.third) == "RRR")
    ensures OnDecode(s, r, now) == if s.phase == Closing then s
                                   else Said(s, s.active.value, "RR73", now).(phase := Closing)
  {
    HeardByExchange(s, r, t, now);
    assert HandleActive(s, t, r, now).0 == PartnerRoger(s, now);
    SaidIsQueued(s, s.active.value, "RR73", now);
  }

  /** The record of a contact that ends now. */
  function Entry(s: Operator, o: ActiveQso, now: Clock): LogRecord {
    LogRecord(o.id, o.remote, if Grid4Upper(o.grid) == "" then GridFor(s.intel, o.remote) else Grid4Upper(o.grid),
              if o.rstSent == "" then "+00" else o.rstSent, if o.rstRcvd == "" then "+00" else o.rstRcvd,
              o.timeOn, now.wall, o.audioHz)
  }

  /** The state after a contact is logged: no contact, the wait before the next CQ
      begun, and the call no longer cooling down. */
  function LoggedNow(s: Operator, o: ActiveQso, now: Clock): Operator {
    s.(active := None, phase := Idle, cqWait := s.station.cqRepeat,
       cooldown := map c | c in s.cooldown && c != CallKey(o.remote) :: s.cooldown[c],
       hist := s.hist.(log := s.hist.log + [Entry(s, o, now)]))
  }

  lemma FinishIsLogged(s: Operator, now: Clock)
    requires s.active.Some?
    ensures FinishQso(s, now) == LoggedNow(s, s.active.value, now)
  {
    assert s.cooldown - {CallKey(s.active.value.remote)}
        == map c | c in s.cooldown && c != CallKey(s.active.value.remote) :: s.cooldown[c];
  }

  /** RR73 or 73 cancels what was in play, is answered with 73, and the contact is
      logged with the reports noted, its grid, and its times. */
  lemma ByeIsAnswered(s: Operator, r: Report, t: Triplet, now: Clock)
    requires Overhears(s, r, t, now) && PartnersWords(s, t) && !IsGridToken(t.third) && Bye(t.third)
    ensures var o := s.active.value;
            OnDecode(s, r, now) == LoggedNow(Said(s.(epoch := s.epoch + 1), o, "73", now), o, now)
  {
    ByeIsHeard(s, r, t, now);
    ByeIsLogged(s, now);
  }

  lemma ByeIsHeard(s: Operator, r: Report, t: Triplet, now: Clock)
    requires Overhears(s, r, t, now) && PartnersWords(s, t) && !IsGridToken(t.third) && Bye(t.third)
    ensures OnDecode(s, r, now) == PartnerBye(s, now)
  {
    HeardByExchange(s, r, t, now);
    ByeIsNoReport(t.third);
  }

  lemma ByeIsLogged(s: Operator, now: Clock)
    requires s.active.Some?
    ensures var o := s.active.value;
            PartnerBye(s, now) == LoggedNow(Said(s.(epoch := s.epoch + 1), o, "73", now), o, now)
  {
    var s1 := Drain(s).(queuedSlot := None);
    var o := s.active.value;
    SaidIsQueued(s1, o, "73", now);
    FinishIsLogged(Said(s1, o, "73", now), now);
    assert Said(s1, o, "73", now) == Said(s.(epoch := s.epoch + 1), o, "73", now);
  }

  lemma ByeIsNoReport(third: string)
    requires Bye(third)
    ensures !IsReport(third) && !IsRReport(third) && !IsRrr(third)
  {}

  /** While closing, running out of retries logs the contact as well. */
  lemma ClosingRunsOut(s: Operator, key: CycleTag, now: Clock)
    requires OwnTick(s, now) && s.phase == Closing && s.active.value.cycles >= s.station.pro.MaxRetry()
    ensures var s' := OnCycle(s, key, now);
            s' == LoggedNow(s.(cqBuf := CqsLeft(s, key), inBuf := CallersLeft(s, key), lastCycle := key),
                            s.active.value, now)
  {
    OnCycleCases(s, key, now);
    FlushSparesContact(s, key, now);
    var s1 := FlushOnNewCycle(s, key, now).0;
    ActiveCycleCases(s1, now);
    FinishIsLogged(Counted(s1), now);
  }

  /** No answer for a cycle, or no report yet. */
  predicate IsStuck(o: ActiveQso) { o.cycles >= 1 || o.rstRcvd == "" }

  /** With the professional options off, or while it is not stuck, a contact is left
      alone by whatever else is heard. */
  lemma OthersLeaveContact(s: Operator, r: Report, t: Triplet, now: Clock)
    requires Overhears(s, r, t, now) && (!s.station.pro.enabled || !IsStuck(s.active.value))
    requires !BetweenCalls(t, s.station.me, CallKey(s.active.value.remote))
    ensures OnDecode(s, r, now) == s
  {
    ListenedTo(s, r, t, now);
    NotClaimed(s, t, r, now);
    NotHeeded(s, t, r, now);
  }

  lemma NotClaimed(s: Operator, t: Triplet, r: Report, now: Clock)
    requires s.active.Some? && !BetweenCalls(t, s.station.me, CallKey(s.active.value.remote))
    ensures HandleActive(s, t, r, now).0 == s
  {}

  lemma NotHeeded(s: Operator, t: Triplet, r: Report, now: Clock)
    requires s.active.Some? && (!s.station.pro.enabled || !IsStuck(s.active.value))
    ensures HandleOther(s, t, r, now) == s
  {}
}

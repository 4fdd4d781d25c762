/** The automatic operator as a function from state to state: one function for
    each method of the source, in the source's order of decisions. */
module OperatorSteps {
  import opened Base
  import opened Protocol
  import opened SlotClock
  import opened OperatorTypes

  // ------------------------------------------------- transmission queue

  function ResolveTxPeriod(s: Operator, now: Clock): int {
    if s.active.Some? then s.active.value.txPeriod
    else if s.cqPeriod.Some? then s.cqPeriod.value
    else PeriodAt(now.wall)
  }

  function Drain(s: Operator): Operator { s.(epoch := s.epoch + 1, queue := []) }

  function ResetCycles(a: Option<ActiveQso>): Option<ActiveQso> {
    if a.Some? then Some(a.value.(cycles := 0)) else None
  }

  /** Room for a new message: what is queued is dropped and the retry count starts over. */
  function Supersede(s: Operator, msg: TxMessage): Operator {
    Drain(s).(lastTx := Some(msg), active := ResetCycles(s.active))
  }

  function QueueTx(s: Operator, msg: TxMessage, hz: real, retry: bool, now: Clock): Operator {
    var period := ResolveTxPeriod(s, now);
    var slot := TxSlotStart(period, now.wall);
    if retry && s.queuedSlot == Some(slot) then s
    else
      var s1 := if retry then s else Supersede(s, msg);
      s1.(queuedSlot := Some(slot), queue := s1.queue + [TxItem(msg, Snap(hz), period, s1.epoch)])
  }

  // -------------------------------------------------- cooldown and buffers

  function MarkFailed(s: Operator, call: string, now: Clock): Operator {
    var c := CallKey(call);
    if c == "" then s
    else s.(cooldown := s.cooldown[c := now.mono + s.station.pro.CooldownSec() as real])
  }

  function AskCooldown(s: Operator, call: string, now: Clock): Operator {
    s.(cooldown := DropExpired(s.cooldown, {CallKey(call)}, now.mono))
  }

  function ClearBuffers(s: Operator): Operator { s.(cqBuf := [], inBuf := []) }

  function BufferIncoming(s: Operator, c: Candidate, now: Clock): Operator {
    s.(inBuf := Prune(s.inBuf, now.wall) + [c])
  }

  // ----------------------------------------------------- contact lifecycle

  function BeginQso(s: Operator, how: Origin, remote: string, grid: string, hz: real, heard: int,
    now: Clock): Operator {
    var key := CallKey(remote);
    var q := ActiveQso(s.hist.begun + 1, how, key,
                       if grid != "" then Grid4Upper(grid) else GridFor(s.intel, key),
                       hz, "", "", now.wall, 0, OppositePeriod(heard));
    s.(active := Some(q), phase := Active, cqWait := 0, hist := s.hist.(begun := s.hist.begun + 1))
  }

  function SetRst(s: Operator, sent: string, rcvd: string): Operator {
    if s.active.Some? then s.(active := Some(s.active.value.(rstSent := sent, rstRcvd := rcvd))) else s
  }

  predicate PrefersFastReport(s: Operator) { s.station.pro.Fast() }

  function AnswerCq(s: Operator, call: string, grid: string, hz: real, snr: int, cycle: CycleTag,
    now: Clock): Operator {
    var s0 := AskCooldown(s, call, now);
    if CoolingDown(s.cooldown, call, now.mono) then s0
    else
      var me := s.station.me;
      var s1 := BeginQso(s0, CqAnswer, call, grid, hz, HeardPeriod(cycle, now), now).(defaultHz := hz);
      if PrefersFastReport(s) && Grid4Upper(grid) != "" then
        SetRst(QueueTx(s1, Message(call, me, SnrText(snr)), hz, false, now), SnrText(snr), "")
      else QueueTx(s1, Message(call, me, s.station.grid4), hz, false, now)
  }

  function AnswerIncoming(
    s: Operator, call: string, grid: string, hz: real, rxReport: string, snr: int, cycle: CycleTag, skipGrid: bool,
    now: Clock): Operator
  {
    var me := s.station.me;
    var s1 := BeginQso(s, IncomingCall, call, grid, hz, HeardPeriod(cycle, now), now).(defaultHz := hz);
    if rxReport != "" && IsReport(rxReport) && !IsRReport(rxReport) then
      QueueTx(SetRst(s1, SnrText(snr), RstFromReport(rxReport)), Message(call, me, "R" + SnrText(snr)), hz, false, now)
    else if skipGrid then
      SetRst(QueueTx(s1, Message(call, me, SnrText(snr)), hz, false, now), SnrText(snr), "")
    else QueueTx(s1, Message(call, me, s.station.grid4), hz, false, now)
  }

  function RecordOf(o: ActiveQso, intel: Intel, now: Clock): LogRecord {
    var g := Grid4Upper(o.grid);
    LogRecord(o.id, o.remote, if g != "" then g else GridFor(intel, o.remote),
              if o.rstSent != "" then o.rstSent else "+00",
              if o.rstRcvd != "" then o.rstRcvd else "+00",
              o.timeOn, now.wall, o.audioHz)
  }

  function AbandonmentOf(o: ActiveQso, pro: ProConfig, now: Clock): Abandonment {
    Abandonment(o.id, CallKey(o.remote), now.mono + pro.CooldownSec() as real)
  }

  /** The contact is written to the log and forgotten. */
  function FinishQso(s: Operator, now: Clock): Operator
    requires s.active.Some?
  {
    var o := s.active.value;
    s.(hist := s.hist.(log := s.hist.log + [RecordOf(o, s.intel, now)]),
       cooldown := s.cooldown - {CallKey(o.remote)},
       active := None, phase := Idle, cqWait := s.station.cqRepeat)
  }

  function FlushIncoming(s: Operator, now: Clock): (Operator, bool) {
    var buf := Prune(s.inBuf, now.wall);
    var s1 := s.(inBuf := []);
    if buf == [] || s.active.Some? then (s1, false)
    else
      var best := PickBest(buf);
      if best.None? then (s1, false)
      else
        var b := best.value;
        (AnswerIncoming(s1, b.call, b.grid, b.audioHz, "", b.snr, b.cycle, true, now), true)
  }

  function FlushCq(s: Operator, now: Clock): (Operator, bool) {
    var buf := Prune(s.cqBuf, now.wall);
    if buf == [] || s.active.Some? then (s.(cqBuf := []), false)
    else
      var s1 := s.(cqBuf := [], cooldown := DropExpired(s.cooldown, KeysOf(buf), now.mono));
      var best := PickBest(Eligible(buf, s.cooldown, now.mono));
      if best.None? then (s1, false)
      else
        var b := best.value;
        (AnswerCq(s1, b.call, b.grid, b.audioHz, b.snr, b.cycle, now), true)
  }

  function Abandoned(s: Operator, now: Clock): Operator
    requires s.active.Some?
  {
    var o := s.active.value;
    Drain(MarkFailed(s, o.remote, now)).(
      hist := s.hist.(abandons := s.hist.abandons + [AbandonmentOf(o, s.station.pro, now)]),
      queuedSlot := None, active := None, phase := Idle, cqWait := 0)
  }

  /** Gives up the contact; a buffered caller may take its place. */
  function AbandonStuck(s: Operator, now: Clock): Operator
    requires s.active.Some?
  {
    var s1 := Abandoned(s, now);
    if (s.station.pro.enabled && s.station.pro.priority == Balanced) || s.cqOnly
    then FlushIncoming(s1, now).0 else s1
  }

  /** The contact is dropped without a log record or a cooldown. */
  function DropActive(s: Operator): Operator {
    s.(active := None, phase := Idle,
       hist := if s.active.Some? then s.hist.(dropped := s.hist.dropped + 1) else s.hist)
  }

  // ---------------------------------------------------- the active contact

  predicate IsSelfEcho(s: Operator, t: Triplet) {
    s.lastTx.Some? && TripletOf(s.lastTx.value).Fields? &&
    var last := TripletOf(s.lastTx.value).value;
    t.third == last.third &&
    ((t.callA == last.callA && t.callB == last.callB) || (t.callA == last.callB && t.callB == last.callA))
  }

  predicate BetweenUs(t: Triplet, me: string, remote: string) {
    var ru := CallKey(remote);
    (t.callA == ru && t.callB == me) || (t.callA == me && t.callB == ru)
  }

  function Prefix4(t: string): string { if |t| <= 4 then t else t[..4] }

  predicate IsMyGrid(t: string, st: Station) { IsGridToken(t) && Prefix4(t) == st.grid4 }

  /** The partner's grid: our report follows, once. */
  function PartnerGrid(s: Operator, third: string, snr: int, now: Clock): Operator
    requires s.active.Some?
  {
    var o := s.active.value;
    var s1 := s.(active := Some(o.(grid := Prefix4(third))));
    if o.rstSent != "" then s1
    else
      SetRst(QueueTx(s1, Message(o.remote, s.station.me, SnrText(snr)), o.audioHz, false, now), SnrText(snr), o.rstRcvd)
  }

  /** The partner's report: our R-report follows, once. */
  function PartnerReport(s: Operator, third: string, snr: int, now: Clock): Operator
    requires s.active.Some?
  {
    var o := s.active.value;
    if o.rstRcvd != "" then s
    else
      var s1 := SetRst(s, if o.rstSent == "" then SnrText(snr) else o.rstSent, RstFromReport(third));
      QueueTx(s1, Message(o.remote, s.station.me, "R" + SnrText(snr)), o.audioHz, false, now)
  }

  /** The partner's R-report or RRR: RR73 follows, once. */
  function PartnerRoger(s: Operator, now: Clock): Operator
    requires s.active.Some?
  {
    var o := s.active.value;
    if s.phase == Closing then s
    else QueueTx(s, Message(o.remote, s.station.me, "RR73"), o.audioHz, false, now).(phase := Closing)
  }

  /** The partner's RR73 or 73: 73 is sent and the contact logged. */
  function PartnerBye(s: Operator, now: Clock): Operator
    requires s.active.Some?
  {
    var o := s.active.value;
    var s1 := Drain(s).(queuedSlot := None);
    FinishQso(QueueTx(s1, Message(o.remote, s.station.me, "73"), o.audioHz, false, now), now)
  }

  function HandleActive(s: Operator, t: Triplet, r: Report, now: Clock): (Operator, bool)
    requires s.active.Some?
  {
    var third := t.third;
    if !(IsRr73(third) || Is73(third)) && IsSelfEcho(s, t) then (s, true)
    else if IsMyGrid(third, s.station) then (s, true)
    else if !BetweenUs(t, s.station.me, s.active.value.remote) then (s, false)
    else if IsGridToken(third) then (PartnerGrid(s, third, r.snr, now), true)
    else if IsReport(third) && !IsRReport(third) then (PartnerReport(s, third, r.snr, now), true)
    else if IsRReport(third) || IsRrr(third) then (PartnerRoger(s, now), true)
    else if IsRr73(third) || Is73(third) then (PartnerBye(s, now), true)
    else (s, false)
  }

  // -------------------------------------------------------- incoming calls

  predicate StuckActive(s: Operator) {
    s.active.Some? && (s.active.value.cycles >= 1 || s.active.value.rstRcvd == "")
  }

  predicate AcceptsReversed(s: Operator) {
    if !s.armed then false
    else if s.active.Some? then s.phase == Active && s.station.pro.enabled && StuckActive(s)
    else if s.phase == CallingCq then true
    else s.phase == Idle && s.cqOnly
  }

  function DirectedToMe(s: Operator, t: Triplet): Option<string> {
    if t.callB == s.station.me && ValidRemoteCall(t.callA) then Some(t.callA) else None
  }

  function DirectedToMeReversed(s: Operator, t: Triplet): Option<string> {
    if !AcceptsReversed(s) then None
    else if t.callA != s.station.me || !ValidRemoteCall(t.callB) then None
    else if IsMyGrid(t.third, s.station) then None
    else if IsRr73(t.third) || Is73(t.third) || IsRrr(t.third) then None
    else if IsSelfEcho(s, t) then None
    else if IsReport(t.third) || IsGridToken(t.third) then Some(t.callB)
    else None
  }

  function DetectIncoming(s: Operator, t: Triplet): Option<string> {
    if DirectedToMe(s, t).Some? then DirectedToMe(s, t) else DirectedToMeReversed(s, t)
  }

  predicate IgnoresMeFirst(s: Operator, t: Triplet) {
    if t.callA != s.station.me || !ValidRemoteCall(t.callB) then false
    else if IsMyGrid(t.third, s.station) then true
    else if s.active.Some? && t.callB == s.active.value.remote
            && (IsReport(t.third) || IsRReport(t.third) || IsRr73(t.third) || Is73(t.third) || IsRrr(t.third))
    then false
    else DirectedToMeReversed(s, t).None?
  }

  predicate ShouldPreempt(s: Operator, remote: string, snr: int) {
    if s.active.None? then true
    else if s.active.value.remote == remote then false
    else if !s.station.pro.enabled || !StuckActive(s) then false
    else if s.station.pro.priority == Balanced then
      var stuck := CallKey(s.active.value.remote);
      var stuckSnr := if stuck in s.intel.snrs then s.intel.snrs[stuck] else -999;
      !((snr as real) < stuckSnr as real - s.station.pro.preemptMarginDb)
    else true
  }

  function NoteIntel(s: Operator, call: string, grid: string, snr: int, km: Option<real>): Operator {
    if s.station.pro.enabled then s.(intel := NoteDecode(s.intel, call, grid, snr, km)) else s
  }

  function ResolveGridDist(s: Operator, r: Report, call: string, third: string): (string, Option<real>) {
    var grid := if third != "" && IsGridToken(third) then Grid4Upper(third) else GridFor(s.intel, call);
    var km := KmFor(s.intel, call);
    if grid != "" && km.Some? then (grid, km)
    else if grid != "" && r.gridKm.Some? then (grid, r.gridKm)
    else (if grid != "" then grid else r.geoGrid, if km.Some? then km else r.geoKm)
  }

  /** A caller found worth hearing joins the buffer. */
  function BufferScored(
    s: Operator, call: string, r: Report, grid: string, km: Option<real>, now: Clock): (Operator, bool)
  {
    var c := ScoreCandidate(call, r, grid, km, r.worked, s.station, false);
    if c.Some? then (BufferIncoming(s, c.value, now), true) else (s, false)
  }

  /** A caller who sent a report, a grid, or whose grid we know. */
  function AnswerCaller(
    s: Operator, third: string, r: Report, call: string, grid: string, km: Option<real>, now: Clock): (Operator, bool)
  {
    if IsReport(third) && !IsRReport(third) then
      (AnswerIncoming(s, call, grid, r.audioHz, third, r.snr, r.cycle, false, now), true)
    else if !IsGridToken(third) && grid == "" then (s, false)
    else if s.cqOnly then (BufferScored(s, call, r, grid, km, now).0, true)
    else
      var g := if grid != "" then grid else third;
      var fast := PrefersFastReport(s) && Grid4Upper(g) != "";
      (AnswerIncoming(s, call, g, r.audioHz, "", r.snr, r.cycle, fast, now), true)
  }

  function ProcessIncoming(s: Operator, third: string, r: Report, call: string, now: Clock): (Operator, bool) {
    if IsRr73(third) || Is73(third) then (s, true)
    else if r.worked && !IsReport(third) then (s, true)
    else
      var (grid, km) := ResolveGridDist(s, r, call, third);
      AnswerCaller(NoteIntel(s, call, grid, r.snr, km), third, r, call, grid, km, now)
  }

  function PreemptOrBuffer(s: Operator, t: Triplet, r: Report, incoming: string, now: Clock): (Operator, bool) {
    if ShouldPreempt(s, incoming, r.snr) then
      var s1 := if s.active.Some? && s.active.value.remote != incoming then DropActive(s) else s;
      if s1.active.None? then ProcessIncoming(s1, t.third, r, incoming, now) else (s1, true)
    else if s.active.Some? && incoming != s.active.value.remote && s.station.pro.enabled && StuckActive(s) then
      if IsRr73(t.third) || Is73(t.third) || IsReport(t.third) then (s, false)
      else
        var (grid, km) := ResolveGridDist(s, r, incoming, t.third);
        BufferScored(s, incoming, r, grid, km, now)
    else (s, false)
  }

  /** A CQ that passed the filters is answered now or kept for the next cycle. */
  function AnswerOrDeferCq(
    s: Operator, call: string, r: Report, grid: string, km: Option<real>, now: Clock): Operator
  {
    if s.station.pro.enabled && s.station.pro.DefersCqPick() then
      var c := ScoreCandidate(call, r, grid, km, false, s.station, true);
      if c.Some? then s.(cqBuf := Prune(s.cqBuf, now.wall) + [c.value]) else s
    else AnswerCq(s, call, grid, r.audioHz, r.snr, r.cycle, now)
  }

  function MaybeAnswerCq(s: Operator, t: Triplet, r: Report, now: Clock): Operator {
    var call := t.callB;
    var pro := s.station.pro;
    if s.cqOnly || s.active.Some? || !ValidRemoteCall(call) then s
    else if r.snr < (if pro.enabled then pro.minSnr else s.station.cqMinSnr) then s
    else if pro.enabled && r.snr > pro.maxSnr then s
    else if r.worked then s
    else
      var s0 := AskCooldown(s, call, now);
      if CoolingDown(s.cooldown, call, now.mono) then s0
      else
        var (grid, km) := ResolveGridDist(s0, r, call, t.third);
        AnswerOrDeferCq(NoteIntel(s0, call, grid, r.snr, km), call, r, grid, km, now)
  }

  function AdoptCqHz(s: Operator, t: Triplet, r: Report): Operator {
    if s.phase != Idle && s.phase != CallingCq then s
    else if t.IsCq() && t.callB == s.station.me then s
    else if r.audioHz < 300.0 || r.audioHz > 3000.0 then s
    else s.(defaultHz := Snap(r.audioHz))
  }

  /** A decode that no rule about callers has claimed. */
  function HandleUnclaimed(s: Operator, t: Triplet, r: Report, now: Clock): Operator {
    if t.IsCq() then MaybeAnswerCq(s, t, r, now)
    else if t.callB == s.station.me && ValidRemoteCall(t.callA) && s.active.None? then
      ProcessIncoming(s, t.third, r, t.callA, now).0
    else s
  }

  /** The rest of a decode once the active contact has not claimed it. */
  function HandleOther(s: Operator, t: Triplet, r: Report, now: Clock): Operator {
    var incoming := DetectIncoming(s, t);
    if incoming.None? then HandleUnclaimed(s, t, r, now)
    else
      var (s1, handled) := PreemptOrBuffer(s, t, r, incoming.value, now);
      if handled then s1 else HandleUnclaimed(s1, t, r, now)
  }

  /** A fresh decode of a message with three fields. */
  function HandleTriplet(s: Operator, t: Triplet, r: Report, now: Clock): Operator {
    if s.active.None? then HandleOther(s, t, r, now)
    else
      var (s1, handled) := HandleActive(s, t, r, now);
      if handled then s1 else HandleOther(s1, t, r, now)
  }

  /** The call does not return: the parser raises before anything is changed. */
  predicate DecodeRaises(s: Operator, r: Report, now: Clock) {
    s.armed && (r.cycle.NoCycle? || Fresh(r.cycle, now.wall)) && MessageTriplet(r.message).Raises?
  }

  function OnDecode(s: Operator, r: Report, now: Clock): Operator {
    if !s.armed then s
    else if !r.cycle.NoCycle? && !Fresh(r.cycle, now.wall) then s
    else
      var t := MessageTriplet(r.message);
      if !t.Fields? then s
      else
        var s1 := AdoptCqHz(s, t.value, r);
        if IgnoresMeFirst(s1, t.value) then s1 else HandleTriplet(s1, t.value, r, now)
  }

  // ------------------------------------------------------------- the cycle

  function QueueCq(s: Operator, now: Clock): Operator {
    if s.active.Some? then s
    else
      var s1 := s.(phase := CallingCq, hist := s.hist.(cqs := s.hist.cqs + 1));
      QueueTx(s1, CqMessage(s.station.me, s.station.grid4), Snap(s.defaultHz), false, now)
  }

  function TickCq(s: Operator, slot: int, now: Clock): Operator {
    if s.cqWait > 0 then s.(cqWait := s.cqWait - 1)
    else if s.cqPeriod != Some(slot) then s
    else QueueCq(s, now).(cqWait := s.station.cqRepeat)
  }

  predicate LastIsRr73(s: Operator) {
    s.lastTx.Some? && TripletOf(s.lastTx.value).Fields? && IsRr73(TripletOf(s.lastTx.value).value.third)
  }

  /** An own-period cycle with a contact that was active before the call. */
  function ActiveCycle(s: Operator, now: Clock): Operator
    requires s.active.Some?
  {
    var a := s.active.value.(cycles := s.active.value.cycles + 1);
    var s1 := s.(active := Some(a));
    if a.cycles > s.station.pro.MaxRetry() then
      (if s.phase == Closing then FinishQso(s1, now) else AbandonStuck(s1, now))
    else if s.lastTx.Some? && (s.phase == Closing ==> LastIsRr73(s)) then
      QueueTx(s1, s.lastTx.value, a.audioHz, true, now)
    else s1
  }

  /** The buffer that is answered from at the start of a cycle. */
  function FlushBuffer(s: Operator, now: Clock): (Operator, bool) {
    if s.cqOnly then FlushIncoming(s, now) else FlushCq(s, now)
  }

  /** The buffer flush at the first call in a new cycle. */
  function FlushOnNewCycle(s: Operator, key: CycleTag, now: Clock): (Operator, bool) {
    if key == s.lastCycle then (s, false)
    else
      var (s1, flushed) := FlushBuffer(s, now);
      (s1.(lastCycle := key), flushed)
  }

  function OnCycle(s: Operator, key: CycleTag, now: Clock): Operator {
    if !s.armed then s
    else
      var (s1, flushed) := FlushOnNewCycle(s, key, now);
      var slot := PeriodAt(now.wall);
      if s1.active.Some? then
        if slot != s1.active.value.txPeriod then s1
        else if flushed && s.active.None? then s1
        else ActiveCycle(s1, now)
      else if key != s.lastCycle then
        TickCq(if s1.cqPeriod.None? then s1.(cqPeriod := Some(slot)) else s1, slot, now)
      else s1
  }

  // -------------------------------------------------------------- commands

  function AbortQso(s: Operator): Operator {
    ClearBuffers(Drain(DropActive(s))).(cqWait := 0, lastTx := None, queuedSlot := None)
  }

  function HaltTransmission(s: Operator, keepArmed: bool): Operator {
    AbortQso(if keepArmed then s else s.(armed := false))
  }

  function Disarm(s: Operator): Operator {
    ClearBuffers(Drain(DropActive(s))).(armed := false, cqWait := 0)
  }

  function SetArmed(s: Operator, on: bool): Operator {
    if !on then Disarm(s)
    else if !s.armed then s.(armed := true, lastCycle := NoCycle, cqPeriod := None, cqWait := 0)
    else s
  }

  function SetCqOnly(s: Operator, on: bool): Operator { ClearBuffers(s).(cqOnly := on) }

  /** The first message of an engaged contact. */
  function SendFirst(s: Operator, call: string, hz: real, rxReport: string, rxSnr: int, now: Clock): Operator {
    var me := s.station.me;
    if rxReport != "" && IsReport(rxReport) then
      QueueTx(SetRst(s, SnrText(rxSnr), RstFromReport(rxReport)), Message(call, me, "R" + SnrText(rxSnr)), hz,
        false, now)
    else QueueTx(s, Message(call, me, s.station.grid4), hz, false, now)
  }

  function EngageCall(s: Operator, call: string, hz: real, rxReport: string, rxSnr: int, now: Clock): Operator {
    var c := CallKey(call);
    var s1 := BeginQso(ClearBuffers(DropActive(s)), Engaged, c, GridFor(s.intel, c), hz, PeriodAt(now.wall), now);
    SendFirst(s1, c, hz, rxReport, rxSnr, now)
  }

  // ---------------------------------------------- operator and TX worker

  datatype Worker =
    | Waiting
    | Slotting(item: TxItem)   // taken from the queue, waiting for its slot
    | Keyed(item: TxItem)      // first abort check passed, PTT being switched on
    | Playing(item: TxItem)    // second abort check passed, audio running

  datatype System = System(op: Operator, worker: Worker)

  datatype Event =
    | Decode(r: Report, now: Clock)
    | Cycle(key: CycleTag, now: Clock)
    | Arm(on: bool)
    | Abort
    | Halt(keepArmed: bool)
    | Engage(call: string, hz: real, rxReport: string, rxSnr: int, now: Clock)
    | CqOnly(on: bool)
    | Configure(pro: ProConfig)
    | CqWait(periods: int)
    | QueryCooldown(now: Clock)
    | Take
    | PassSlot(wall: real)
    | StartPlay
    | StopItem // cancelled, refused, failed or played to the end

  function OperatorStep(s: Operator, e: Event): Operator {
    match e
    case Decode(r, now) => OnDecode(s, r, now)
    case Cycle(key, now) => OnCycle(s, key, now)
    case Arm(on) => SetArmed(s, on)
    case Abort => AbortQso(s)
    case Halt(keepArmed) => HaltTransmission(s, keepArmed)
    case Engage(call, hz, rxReport, rxSnr, now) => EngageCall(s, call, hz, rxReport, rxSnr, now)
    case CqOnly(on) => SetCqOnly(s, on)
    case Configure(pro) => s.(station := s.station.(pro := pro))
    case CqWait(periods) => s.(station := s.station.(cqRepeat := NormalizeCqWait(periods)))
    case QueryCooldown(now) => s.(cooldown := DropExpired(s.cooldown, s.cooldown.Keys, now.mono))
    case _ => s
  }

  predicate AbortCheckPasses(y: System) { y.worker.Waiting? || y.worker.item.epoch == y.op.epoch }

  /** One atomic step. A worker step that is not enabled changes nothing. */
  function Step(y: System, e: Event): System {
    match e
    case Take =>
      if y.worker.Waiting? && y.op.queue != [] then
        System(y.op.(queue := y.op.queue[1..]), Slotting(y.op.queue[0]))
      else y
    case PassSlot(wall) =>
      if y.worker.Slotting? && SecondsUntilTxPeriod(y.worker.item.period, wall) <= 0.0 && AbortCheckPasses(y) then
        y.(worker := Keyed(y.worker.item))
      else y
    case StartPlay =>
      if y.worker.Keyed? && AbortCheckPasses(y) then y.(worker := Playing(y.worker.item)) else y
    case StopItem =>
      if y.worker.Waiting? then y else System(y.op.(queuedSlot := None), Waiting)
    case _ => y.(op := OperatorStep(y.op, e))
  }
}

/** What does not depend on the cooldowns: calls addressed to us and contacts
    engaged by hand. */
module CooldownIndependence {
  import opened Base
  import opened Protocol
  import opened SlotClock
  import opened OperatorTypes
  import opened OperatorSteps
  import opened OperatorProofs

  /** The two states differ in nothing but the cooldowns. */
  predicate Alike(a: Operator, b: Operator) { b == a.(cooldown := b.cooldown) }

  /** From alike states to alike states, leaving the cooldowns as they are. */
  predicate Spared(a: Operator, b: Operator, a': Operator, b': Operator) {
    Alike(a', b') && a'.cooldown == a.cooldown && b'.cooldown == b.cooldown
  }

  lemma QueueTxSpares(a: Operator, b: Operator, msg: TxMessage, hz: real, now: Clock)
    requires Alike(a, b)
    ensures Spared(a, b, QueueTx(a, msg, hz, false, now), QueueTx(b, msg, hz, false, now))
  {}

  lemma BeginSpares(a: Operator, b: Operator, how: Origin, remote: string, grid: string, hz: real, heard: int,
    dhz: real, now: Clock)
    requires Alike(a, b)
    ensures Spared(a, b, BeginQso(a, how, remote, grid, hz, heard, now).(defaultHz := dhz),
                   BeginQso(b, how, remote, grid, hz, heard, now).(defaultHz := dhz))
  {}

  lemma SetRstSpares(a: Operator, b: Operator, sent: string, rcvd: string)
    requires Alike(a, b)
    ensures Spared(a, b, SetRst(a, sent, rcvd), SetRst(b, sent, rcvd))
  {}

  lemma OpenedSpares(
    a: Operator, b: Operator, how: Origin, call: string, grid: string, heard: int, sent: string, rcvd: string,
    third: string, hz: real, dhz: real, now: Clock)
    requires Alike(a, b)
    ensures Spared(a, b, Opened(a, how, call, grid, heard, sent, rcvd, third, hz, dhz, now),
                   Opened(b, how, call, grid, heard, sent, rcvd, third, hz, dhz, now))
  {
    var a1 := BeginQso(a, how, call, grid, hz, heard, now).(defaultHz := dhz);
    var b1 := BeginQso(b, how, call, grid, hz, heard, now).(defaultHz := dhz);
    var m := Message(call, a.station.me, third);
    BeginSpares(a, b, how, call, grid, hz, heard, dhz, now);
    QueueTxSpares(a1, b1, m, hz, now);
    SetRstSpares(QueueTx(a1, m, hz, false, now), QueueTx(b1, m, hz, false, now), sent, rcvd);
  }

  lemma AnswerSpares(
    a: Operator, b: Operator, call: string, grid: string, hz: real, rxReport: string, snr: int, cycle: CycleTag,
    skipGrid: bool, now: Clock)
    requires Alike(a, b)
    ensures Spared(a, b, AnswerIncoming(a, call, grid, hz, rxReport, snr, cycle, skipGrid, now),
                   AnswerIncoming(b, call, grid, hz, rxReport, snr, cycle, skipGrid, now))
  {
    AnswerIncomingOpens(a, call, grid, hz, rxReport, snr, cycle, skipGrid, now);
    AnswerIncomingOpens(b, call, grid, hz, rxReport, snr, cycle, skipGrid, now);
    var (third, sent, rcvd) := ReplyThird(a.station, rxReport, snr, skipGrid);
    OpenedSpares(a, b, IncomingCall, call, grid, HeardPeriod(cycle, now), sent, rcvd, third, hz, hz, now);
  }

  lemma AnswerCallerSpares(a: Operator, b: Operator, third: string, r: Report, call: string, grid: string,
    km: Option<real>, now: Clock)
    requires Alike(a, b)
    ensures var x, y := AnswerCaller(a, third, r, call, grid, km, now), AnswerCaller(b, third, r, call, grid, km, now);
            x.1 == y.1 && Spared(a, b, x.0, y.0)
  {
    if IsReport(third) && !IsRReport(third) {
      AnswerSpares(a, b, call, grid, r.audioHz, third, r.snr, r.cycle, false, now);
    } else if !IsGridToken(third) && grid == "" {
    } else if a.cqOnly {
      BufferSpares(a, b, call, r, grid, km, now);
    } else {
      var g := if grid != "" then grid else third;
      AnswerSpares(a, b, call, g, r.audioHz, "", r.snr, r.cycle, PrefersFastReport(a) && Grid4Upper(g) != "", now);
    }
  }

  lemma BufferSpares(a: Operator, b: Operator, call: string, r: Report, grid: string, km: Option<real>, now: Clock)
    requires Alike(a, b)
    ensures Spared(a, b, BufferScored(a, call, r, grid, km, now).0, BufferScored(b, call, r, grid, km, now).0)
  {}

  /** A call addressed to us is treated the same whatever is cooling down, and
      leaves the cooldowns as they are. */
  lemma CooldownSparesCallers(a: Operator, b: Operator, third: string, r: Report, call: string, now: Clock)
    requires Alike(a, b)
    ensures var x, y := ProcessIncoming(a, third, r, call, now), ProcessIncoming(b, third, r, call, now);
            x.1 == y.1 && Spared(a, b, x.0, y.0)
  {
    var (grid, km) := ResolveGridDist(a, r, call, third);
    assert ResolveGridDist(b, r, call, third) == (grid, km);
    AnswerCallerSpares(NoteIntel(a, call, grid, r.snr, km), NoteIntel(b, call, grid, r.snr, km), third, r, call,
      grid, km, now);
  }

  /** So is a contact engaged by hand. */
  lemma CooldownSparesEngaged(a: Operator, b: Operator, call: string, hz: real, rxReport: string, rxSnr: int,
    now: Clock)
    requires Alike(a, b)
    ensures Spared(a, b, EngageCall(a, call, hz, rxReport, rxSnr, now), EngageCall(b, call, hz, rxReport, rxSnr, now))
  {
    var a1, b1 := ClearBuffers(DropActive(a)), ClearBuffers(DropActive(b));
    var c, rst := CallKey(call), SnrText(rxSnr);
    var g, heard := GridFor(a.intel, c), PeriodAt(now.wall);
    FirstSends(a1, c, hz, rxReport, rxSnr, now);
    FirstSends(b1, c, hz, rxReport, rxSnr, now);
    if rxReport != "" && IsReport(rxReport) {
      OpenedSpares(a1, b1, Engaged, c, g, heard, rst, RstFromReport(rxReport), "R" + rst, hz, a.defaultHz, now);
    } else {
      OpenedSpares(a1, b1, Engaged, c, g, heard, "", "", a.station.grid4, hz, a.defaultHz, now);
    }
  }

  // ------------------------------------------------------------ whole decodes

  /** From alike states to alike states; the cooldowns lose at most the entry of a
      partner whose contact has just been logged. */
  predicate SparedBut(a: Operator, b: Operator, a': Operator, b': Operator) {
    && Alike(a', b')
    && (Spared(a, b, a', b')
        || (a.active.Some? && a'.active.None? && a'.hist.log != a.hist.log
            && a'.cooldown == a.cooldown - {CallKey(a.active.value.remote)}
            && b'.cooldown == b.cooldown - {CallKey(a.active.value.remote)}))
  }

  lemma GridSpares(a: Operator, b: Operator, third: string, snr: int, now: Clock)
    requires Alike(a, b) && a.active.Some?
    ensures Spared(a, b, PartnerGrid(a, third, snr, now), PartnerGrid(b, third, snr, now))
  {
    var o := a.active.value;
    var a1, b1 := a.(active := Some(o.(grid := Prefix4(third)))), b.(active := Some(o.(grid := Prefix4(third))));
    var m := Message(o.remote, a.station.me, SnrText(snr));
    if o.rstSent == "" {
      QueueTxSpares(a1, b1, m, o.audioHz, now);
      SetRstSpares(QueueTx(a1, m, o.audioHz, false, now), QueueTx(b1, m, o.audioHz, false, now), SnrText(snr),
        o.rstRcvd);
    }
  }

  lemma ReportSpares(a: Operator, b: Operator, third: string, snr: int, now: Clock)
    requires Alike(a, b) && a.active.Some?
    ensures Spared(a, b, PartnerReport(a, third, snr, now), PartnerReport(b, third, snr, now))
  {
    var o := a.active.value;
    if o.rstRcvd == "" {
      var sent, rcvd := if o.rstSent == "" then SnrText(snr) else o.rstSent, RstFromReport(third);
      SetRstSpares(a, b, sent, rcvd);
      var m := Message(o.remote, a.station.me, "R" + SnrText(snr));
      QueueTxSpares(SetRst(a, sent, rcvd), SetRst(b, sent, rcvd), m, o.audioHz, now);
    }
  }

  lemma RogerSpares(a: Operator, b: Operator, now: Clock)
    requires Alike(a, b) && a.active.Some?
    ensures Spared(a, b, PartnerRoger(a, now), PartnerRoger(b, now))
  {
    var o := a.active.value;
    QueueTxSpares(a, b, Message(o.remote, a.station.me, "RR73"), o.audioHz, now);
  }

  lemma FinishSpares(a: Operator, b: Operator, now: Clock)
    requires Alike(a, b) && a.active.Some?
    ensures SparedBut(a, b, FinishQso(a, now), FinishQso(b, now))
  {}

  lemma ByeSpares(a: Operator, b: Operator, now: Clock)
    requires Alike(a, b) && a.active.Some?
    ensures SparedBut(a, b, PartnerBye(a, now), PartnerBye(b, now))
  {
    var o := a.active.value;
    var a1, b1 := Drain(a).(queuedSlot := None), Drain(b).(queuedSlot := None);
    var m := Message(o.remote, a.station.me, "73");
    QueueTxSpares(a1, b1, m, o.audioHz, now);
    FinishSpares(QueueTx(a1, m, o.audioHz, false, now), QueueTx(b1, m, o.audioHz, false, now), now);
  }

  /** Which rule of the exchange a message falls under. */
  datatype Rule = OwnEcho | NotOurs | OfGrid | OfReport | OfRoger | OfBye | OfNone

  function RuleOf(s: Operator, t: Triplet): Rule
    requires s.active.Some?
  {
    var third := t.third;
    if (!(IsRr73(third) || Is73(third)) && IsSelfEcho(s, t)) || IsMyGrid(third, s.station) then OwnEcho
    else if !BetweenUs(t, s.station.me, s.active.value.remote) then NotOurs
    else if IsGridToken(third) then OfGrid
    else if IsReport(third) && !IsRReport(third) then OfReport
    else if IsRReport(third) || IsRrr(third) then OfRoger
    else if IsRr73(third) || Is73(third) then OfBye
    else OfNone
  }

  lemma RuleDecides(s: Operator, t: Triplet, r: Report, now: Clock)
    requires s.active.Some?
    ensures HandleActive(s, t, r, now) ==
              match RuleOf(s, t)
              case OwnEcho => (s, true)
              case OfGrid => (PartnerGrid(s, t.third, r.snr, now), true)
              case OfReport => (PartnerReport(s, t.third, r.snr, now), true)
              case OfRoger => (PartnerRoger(s, now), true)
              case OfBye => (PartnerBye(s, now), true)
              case _ => (s, false)
  {}

  lemma RulesAlike(a: Operator, b: Operator, t: Triplet)
    requires Alike(a, b) && a.active.Some?
    ensures RuleOf(a, t) == RuleOf(b, t)
  {}

  lemma HandleActiveSpares(a: Operator, b: Operator, t: Triplet, r: Report, now: Clock)
    requires Alike(a, b) && a.active.Some?
    ensures var x, y := HandleActive(a, t, r, now), HandleActive(b, t, r, now);
            x.1 == y.1 && SparedBut(a, b, x.0, y.0) && (!x.1 ==> x.0 == a && y.0 == b)
  {
    RuleDecides(a, t, r, now);
    RuleDecides(b, t, r, now);
    RulesAlike(a, b, t);
    match RuleOf(a, t)
    case OfGrid => GridSpares(a, b, t.third, r.snr, now);
    case OfReport => ReportSpares(a, b, t.third, r.snr, now);
    case OfRoger => RogerSpares(a, b, now);
    case OfBye => ByeSpares(a, b, now);
    case _ =>
  }

  /** Taking a caller up, after dropping another contact if there is one. */
  function TakenUp(s: Operator, t: Triplet, r: Report, incoming: string, now: Clock): (Operator, bool) {
    var s1 := if s.active.Some? && s.active.value.remote != incoming then DropActive(s) else s;
    if s1.active.None? then ProcessIncoming(s1, t.third, r, incoming, now) else (s1, true)
  }

  /** Keeping a caller for later, while a stuck contact goes on. */
  function PutAside(s: Operator, t: Triplet, r: Report, incoming: string, now: Clock): (Operator, bool) {
    if !(s.active.Some? && incoming != s.active.value.remote && s.station.pro.enabled && StuckActive(s)) then (s, false)
    else if IsRr73(t.third) || Is73(t.third) || IsReport(t.third) then (s, false)
    else
      var (grid, km) := ResolveGridDist(s, r, incoming, t.third);
      BufferScored(s, incoming, r, grid, km, now)
  }

  lemma PreemptCases(s: Operator, t: Triplet, r: Report, incoming: string, now: Clock)
    ensures PreemptOrBuffer(s, t, r, incoming, now)
         == if ShouldPreempt(s, incoming, r.snr) then TakenUp(s, t, r, incoming, now)
           else PutAside(s, t, r, incoming, now)
  {}

  lemma PreemptAlike(a: Operator, b: Operator, incoming: string, snr: int)
    requires Alike(a, b)
    ensures ShouldPreempt(a, incoming, snr) == ShouldPreempt(b, incoming, snr) && StuckActive(a) == StuckActive(b)
  {}

  lemma TakenUpSpares(a: Operator, b: Operator, t: Triplet, r: Report, incoming: string, now: Clock)
    requires Alike(a, b)
    ensures var x, y := TakenUp(a, t, r, incoming, now), TakenUp(b, t, r, incoming, now);
            x.1 == y.1 && Spared(a, b, x.0, y.0)
  {
    var drops := a.active.Some? && a.active.value.remote != incoming;
    var a1, b1 := if drops then DropActive(a) else a, if drops then DropActive(b) else b;
    if a1.active.None? { CooldownSparesCallers(a1, b1, t.third, r, incoming, now); }
  }

  lemma PutAsideSpares(a: Operator, b: Operator, t: Triplet, r: Report, incoming: string, now: Clock)
    requires Alike(a, b)
    ensures var x, y := PutAside(a, t, r, incoming, now), PutAside(b, t, r, incoming, now);
            x.1 == y.1 && Spared(a, b, x.0, y.0)
  {
    PreemptAlike(a, b, incoming, r.snr);
    var (grid, km) := ResolveGridDist(a, r, incoming, t.third);
    BufferSpares(a, b, incoming, r, grid, km, now);
  }

  lemma PreemptSpares(a: Operator, b: Operator, t: Triplet, r: Report, incoming: string, now: Clock)
    requires Alike(a, b)
    ensures var x, y := PreemptOrBuffer(a, t, r, incoming, now), PreemptOrBuffer(b, t, r, incoming, now);
            x.1 == y.1 && Spared(a, b, x.0, y.0)
  {
    PreemptCases(a, t, r, incoming, now);
    PreemptCases(b, t, r, incoming, now);
    PreemptAlike(a, b, incoming, r.snr);
    if ShouldPreempt(a, incoming, r.snr) {
      TakenUpSpares(a, b, t, r, incoming, now);
    } else {
      PutAsideSpares(a, b, t, r, incoming, now);
    }
  }

  lemma OtherSpares(a: Operator, b: Operator, t: Triplet, r: Report, now: Clock)
    requires Alike(a, b) && !t.IsCq()
    ensures Spared(a, b, HandleOther(a, t, r, now), HandleOther(b, t, r, now))
  {
    var incoming := DetectIncoming(a, t);
    assert DetectIncoming(b, t) == incoming;
    if incoming.None? {
      UnclaimedSpares(a, b, t, r, now);
    } else {
      PreemptSpares(a, b, t, r, incoming.value, now);
      var a1, b1 := PreemptOrBuffer(a, t, r, incoming.value, now).0, PreemptOrBuffer(b, t, r, incoming.value, now).0;
      UnclaimedSpares(a1, b1, t, r, now);
    }
  }

  lemma UnclaimedSpares(a: Operator, b: Operator, t: Triplet, r: Report, now: Clock)
    requires Alike(a, b) && !t.IsCq()
    ensures Spared(a, b, HandleUnclaimed(a, t, r, now), HandleUnclaimed(b, t, r, now))
  {
    CooldownSparesCallers(a, b, t.third, r, t.callA, now);
  }

  lemma TripletSpares(a: Operator, b: Operator, t: Triplet, r: Report, now: Clock)
    requires Alike(a, b) && !t.IsCq()
    ensures SparedBut(a, b, HandleTriplet(a, t, r, now), HandleTriplet(b, t, r, now))
  {
    OtherSpares(a, b, t, r, now);
    if a.active.Some? { HandleActiveSpares(a, b, t, r, now); }
  }

  lemma AdoptSpares(a: Operator, b: Operator, t: Triplet, r: Report)
    requires Alike(a, b)
    ensures Spared(a, b, AdoptCqHz(a, t, r), AdoptCqHz(b, t, r)) && AdoptCqHz(a, t, r).active == a.active
    ensures AdoptCqHz(a, t, r).hist == a.hist
    ensures IgnoresMeFirst(AdoptCqHz(a, t, r), t) == IgnoresMeFirst(AdoptCqHz(b, t, r), t)
  {}

  /** Every decode but a CQ has the same effect whatever is cooling down: answers,
      contacts, queue and log are the same, and the cooldowns lose at most the entry
      of the partner logged by it. */
  lemma CooldownSparesDecodes(a: Operator, b: Operator, r: Report, now: Clock)
    requires Alike(a, b) && (MessageTriplet(r.message).Fields? ==> !MessageTriplet(r.message).value.IsCq())
    ensures SparedBut(a, b, OnDecode(a, r, now), OnDecode(b, r, now))
  {
    if MessageTriplet(r.message).Fields? {
      var t := MessageTriplet(r.message).value;
      AdoptSpares(a, b, t, r);
      TripletSpares(AdoptCqHz(a, t, r), AdoptCqHz(b, t, r), t, r, now);
    }
  }
}

/** Where contacts come from: every contact the operator begins by itself answers a
    station it decoded, on that station's tone and in the other period. */
module OperatorOrigins {
  import opened Base
  import opened Protocol
  import opened SlotClock
  import opened OperatorTypes
  import opened OperatorSteps
  import opened OperatorProofs
  import opened OperatorRuns

  // -------------------------------------------------------- what is promised

  /** The period is the other one than that in which the call was heard: of the
      15 s slot its cycle names, of the clock if it has none, or of the library's
      answer if its text is no key. */
  predicate TurnAbout(period: int, cycle: CycleTag, now: Clock) {
    match cycle
    case Slot(start) => period == 1 - (start / 15) % 2
    case NoCycle => period == 1 - (now.wall / 15.0).Floor % 2
    case Garbled(_) => period == 1 - now.lib % 2
  }

  /** A contact with this station has just begun, on its tone and in the other
      period, and the first message to it is alone in the queue for that period. */
  predicate Begun(s: Operator, s': Operator, how: Origin, call: string, hz: real, cycle: CycleTag, now: Clock) {
    && s'.hist.begun == s.hist.begun + 1 && s'.active.Some? && s'.phase == Active && s'.cqWait == 0
    && var q := s'.active.value;
    && q.id == s'.hist.begun && q.how == how && q.remote == CallKey(call) && q.audioHz == hz && s'.defaultHz == hz
    && q.timeOn == now.wall && q.cycles == 0
    && TurnAbout(q.txPeriod, cycle, now)
    && s.epoch < s'.epoch
    && s'.lastTx.Some? && s'.lastTx.value.Message?
    && s'.lastTx.value.to == call && s'.lastTx.value.de == s.station.me
    && s'.queue == [TxItem(s'.lastTx.value, Snap(hz), q.txPeriod, s'.epoch)]
    && s'.queuedSlot == Some(TxSlotStart(q.txPeriod, now.wall))
  }

  /** No contact has begun, and the tone is as it was. */
  predicate NoneBegun(s: Operator, s': Operator) {
    && s'.hist.begun == s.hist.begun && s'.defaultHz == s.defaultHz
    && (s'.active.Some? ==> SameContact(s, s'))
  }

  /** The message names us and another station, or is the other station's CQ, and
      a contact with that station begins. */
  predicate BegunWith(s: Operator, s': Operator, t: Triplet, r: Report, now: Clock) {
    || (t.callA == "CQ" && Begun(s, s', CqAnswer, t.callB, r.audioHz, r.cycle, now))
    || (t.callB == s.station.me && Begun(s, s', IncomingCall, t.callA, r.audioHz, r.cycle, now))
    || (t.callA == s.station.me && Begun(s, s', IncomingCall, t.callB, r.audioHz, r.cycle, now))
  }

  /** The candidate is what this decode said of a station. */
  predicate HeardAs(c: Candidate, call: string, r: Report) {
    c.call == call && c.audioHz == r.audioHz && c.snr == r.snr && c.cycle == r.cycle
  }

  predicate Stocks(before: seq<Candidate>, after: seq<Candidate>, t: Triplet, r: Report) {
    forall c :: c in after ==> c in before || HeardAs(c, t.callA, r) || HeardAs(c, t.callB, r)
  }

  /** What a decode may begin and keep for later. */
  predicate Sourced(s: Operator, s': Operator, t: Triplet, r: Report, now: Clock) {
    && (NoneBegun(s, s') || BegunWith(s, s', t, r, now))
    && Stocks(s.cqBuf, s'.cqBuf, t, r) && Stocks(s.inBuf, s'.inBuf, t, r)
  }

  /** Recent enough to be answered. */
  predicate Recent(cycle: CycleTag, now: Clock) {
    cycle.NoCycle? || (cycle.Slot? ==> now.wall.Floor - cycle.start <= 32)
  }

  predicate BegunFrom(s: Operator, s': Operator, how: Origin, c: Candidate, now: Clock) {
    Recent(c.cycle, now) && Begun(s, s', how, c.call, c.audioHz, c.cycle, now)
  }

  /** Where a contact begun at the start of a cycle comes from. */
  predicate FromBuffers(s: Operator, s': Operator, now: Clock) {
    || NoneBegun(s, s')
    || (exists c :: c in s.cqBuf && BegunFrom(s, s', CqAnswer, c, now))
    || (exists c :: c in s.inBuf && BegunFrom(s, s', IncomingCall, c, now))
  }

  // ------------------------------------------------------------ first messages

  lemma OtherPeriod(cycle: CycleTag, now: Clock)
    ensures TurnAbout(OppositePeriod(HeardPeriod(cycle, now)), cycle, now)
  {
    if cycle.Slot? {
      SlotIndexUnique(cycle.start as real, cycle.start / 15);
    }
  }

  lemma OpenedBegins(
    s: Operator, how: Origin, call: string, grid: string, sent: string, rcvd: string, third: string, hz: real,
    cycle: CycleTag, now: Clock)
    ensures Begun(s, Opened(s, how, call, grid, HeardPeriod(cycle, now), sent, rcvd, third, hz, hz, now),
                  how, call, hz, cycle, now)
  {
    OtherPeriod(cycle, now);
  }

  /** Only the count, the epoch and our call matter of the state before. */
  lemma BegunAfter(s: Operator, s0: Operator, s': Operator, how: Origin, call: string, hz: real, cycle: CycleTag,
      now: Clock)
    requires Begun(s0, s', how, call, hz, cycle, now)
    requires s0.hist.begun == s.hist.begun && s.epoch <= s0.epoch && s0.station.me == s.station.me
    ensures Begun(s, s', how, call, hz, cycle, now)
  {}

  lemma CqAnswerBegins(s: Operator, call: string, grid: string, hz: real, snr: int, cycle: CycleTag, now: Clock)
    ensures var s' := AnswerCq(s, call, grid, hz, snr, cycle, now);
            && (if CoolingDown(s.cooldown, call, now.mono) then NoneBegun(s, s')
                else Begun(s, s', CqAnswer, call, hz, cycle, now))
            && s'.cqBuf == s.cqBuf && s'.inBuf == s.inBuf
  {
    if !CoolingDown(s.cooldown, call, now.mono) {
      AnswerCqOpens(s, call, grid, hz, snr, cycle, now);
      var s0 := AskCooldown(s, call, now);
      var fast := PrefersFastReport(s) && Grid4Upper(grid) != "";
      var third, sent := if fast then SnrText(snr) else s.station.grid4, if fast then SnrText(snr) else "";
      OpenedBegins(s0, CqAnswer, call, grid, sent, "", third, hz, cycle, now);
      BegunAfter(s, s0, AnswerCq(s, call, grid, hz, snr, cycle, now), CqAnswer, call, hz, cycle, now);
    }
  }

  lemma CallerAnswerBegins(
    s: Operator, call: string, grid: string, hz: real, rx: string, snr: int, cycle: CycleTag, skip: bool, now: Clock)
    ensures var s' := AnswerIncoming(s, call, grid, hz, rx, snr, cycle, skip, now);
            Begun(s, s', IncomingCall, call, hz, cycle, now) && s'.cqBuf == s.cqBuf && s'.inBuf == s.inBuf
  {
    AnswerIncomingOpens(s, call, grid, hz, rx, snr, cycle, skip, now);
    var (third, sent, rcvd) := ReplyThird(s.station, rx, snr, skip);
    OpenedBegins(s, IncomingCall, call, grid, sent, rcvd, third, hz, cycle, now);
  }

  // ------------------------------------------------------------------ buffers

  lemma {:induction false} PrunedAreRecent(cs: seq<Candidate>, wall: real, c: Candidate)
    requires c in Prune(cs, wall)
    ensures c in cs && !c.cycle.NoCycle? && (c.cycle.Slot? ==> wall.Floor - c.cycle.start <= 32)
  {
    var last, front := cs[|cs| - 1], cs[..|cs| - 1];
    if c in Prune(front, wall) {
      PrunedAreRecent(front, wall, c);
    } else if c.cycle.Slot? {
      FreshnessGap(c.cycle.start, wall);
    }
  }

  lemma {:induction false} EligibleAreKept(cs: seq<Candidate>, cooldown: map<string, real>, mono: real, c: Candidate)
    requires c in Eligible(cs, cooldown, mono)
    ensures c in cs && !CoolingDown(cooldown, c.call, mono)
  {
    var last, front := cs[|cs| - 1], cs[..|cs| - 1];
    if c in Eligible(front, cooldown, mono) { EligibleAreKept(front, cooldown, mono, c); }
  }

  /** The buffers hold nothing they did not hold before. */
  predicate Kept(s: Operator, s': Operator) {
    (forall c :: c in s'.cqBuf ==> c in s.cqBuf) && (forall c :: c in s'.inBuf ==> c in s.inBuf)
  }

  predicate Flushes(s: Operator, s': Operator, flushed: bool, now: Clock) {
    && FromBuffers(s, s', now) && Kept(s, s') && s'.station == s.station && s.epoch <= s'.epoch
    && (s.active.Some? || s'.active.None? ==> NoneBegun(s, s'))
    && (s.active.None? && s'.active.Some? ==> flushed)
  }

  lemma FlushedCaller(s: Operator, now: Clock)
    ensures var (s', flushed) := FlushIncoming(s, now); Flushes(s, s', flushed, now)
  {
    var buf := Prune(s.inBuf, now.wall);
    var best := PickBest(buf);
    if buf != [] && s.active.None? && best.Some? {
      var b, s1 := best.value, s.(inBuf := []);
      PickBestIsFirstMaximum(buf);
      PrunedAreRecent(s.inBuf, now.wall, b);
      CallerAnswerBegins(s1, b.call, b.grid, b.audioHz, "", b.snr, b.cycle, true, now);
      var s' := FlushIncoming(s, now).0;
      BegunAfter(s, s1, s', IncomingCall, b.call, b.audioHz, b.cycle, now);
      assert BegunFrom(s, s', IncomingCall, b, now);
    }
  }

  lemma FlushedCq(s: Operator, now: Clock)
    ensures var (s', flushed) := FlushCq(s, now); Flushes(s, s', flushed, now)
  {
    var buf := Prune(s.cqBuf, now.wall);
    var list := Eligible(buf, s.cooldown, now.mono);
    var best := PickBest(list);
    if buf != [] && s.active.None? && best.Some? {
      var b, s1 := best.value, s.(cqBuf := [], cooldown := DropExpired(s.cooldown, KeysOf(buf), now.mono));
      PickBestIsFirstMaximum(list);
      EligibleAreKept(buf, s.cooldown, now.mono, b);
      PrunedAreRecent(s.cqBuf, now.wall, b);
      CqAnswerBegins(s1, b.call, b.grid, b.audioHz, b.snr, b.cycle, now);
      var s' := FlushCq(s, now).0;
      assert !CoolingDown(s1.cooldown, b.call, now.mono);
      BegunAfter(s, s1, s', CqAnswer, b.call, b.audioHz, b.cycle, now);
      assert BegunFrom(s, s', CqAnswer, b, now);
    }
  }

  // ------------------------------------------------------------------ decodes

  /** Nothing but the tone, the heard facts, the cooldowns and whether there is a
      contact may differ before. */
  lemma SourcedAfter(s: Operator, s0: Operator, s': Operator, t: Triplet, r: Report, now: Clock)
    requires Sourced(s0, s', t, r, now) && s0.hist.begun == s.hist.begun && s.epoch == s0.epoch
    requires s0.station == s.station && s0.cqBuf == s.cqBuf && s0.inBuf == s.inBuf && s0.defaultHz == s.defaultHz
    requires s0.active.Some? ==> SameContact(s, s0)
    ensures Sourced(s, s', t, r, now)
  {}

  lemma BufferedIsHeard(s: Operator, call: string, t: Triplet, r: Report, grid: string, km: Option<real>, now: Clock)
    requires call == t.callA || call == t.callB
    ensures Sourced(s, BufferScored(s, call, r, grid, km, now).0, t, r, now)
  {
    var s' := BufferScored(s, call, r, grid, km, now).0;
    forall c | c in s'.inBuf ensures c in s.inBuf || HeardAs(c, call, r) {
      if c in Prune(s.inBuf, now.wall) { PrunedAreRecent(s.inBuf, now.wall, c); }
    }
  }

  predicate Calls(t: Triplet, call: string, me: string) {
    (t.callB == me && call == t.callA) || (t.callA == me && call == t.callB)
  }

  lemma CallerSourced(s: Operator, third: string, t: Triplet, r: Report, call: string, grid: string, km: Option<real>,
      now: Clock)
    requires Calls(t, call, s.station.me)
    ensures Sourced(s, AnswerCaller(s, third, r, call, grid, km, now).0, t, r, now)
  {
    if IsReport(third) && !IsRReport(third) {
      CallerAnswerBegins(s, call, grid, r.audioHz, third, r.snr, r.cycle, false, now);
    } else if !IsGridToken(third) && grid == "" {
    } else if s.cqOnly {
      BufferedIsHeard(s, call, t, r, grid, km, now);
    } else {
      var g := if grid != "" then grid else third;
      CallerAnswerBegins(s, call, g, r.audioHz, "", r.snr, r.cycle, PrefersFastReport(s) && Grid4Upper(g) != "", now);
    }
  }

  lemma IncomingSourced(s: Operator, third: string, t: Triplet, r: Report, call: string, now: Clock)
    requires Calls(t, call, s.station.me)
    ensures Sourced(s, ProcessIncoming(s, third, r, call, now).0, t, r, now)
  {
    var (grid, km) := ResolveGridDist(s, r, call, third);
    var s0 := NoteIntel(s, call, grid, r.snr, km);
    CallerSourced(s0, third, t, r, call, grid, km, now);
    SourcedAfter(s, s0, AnswerCaller(s0, third, r, call, grid, km, now).0, t, r, now);
  }

  lemma PreemptSourced(s: Operator, t: Triplet, r: Report, incoming: string, now: Clock)
    requires Calls(t, incoming, s.station.me)
    ensures Sourced(s, PreemptOrBuffer(s, t, r, incoming, now).0, t, r, now)
  {
    if ShouldPreempt(s, incoming, r.snr) {
      var s0 := if s.active.Some? && s.active.value.remote != incoming then DropActive(s) else s;
      IncomingSourced(s0, t.third, t, r, incoming, now);
      SourcedAfter(s, s0, ProcessIncoming(s0, t.third, r, incoming, now).0, t, r, now);
    } else {
      var (grid, km) := ResolveGridDist(s, r, incoming, t.third);
      BufferedIsHeard(s, incoming, t, r, grid, km, now);
    }
  }

  lemma DeferSourced(s: Operator, t: Triplet, r: Report, grid: string, km: Option<real>, now: Clock)
    requires t.IsCq()
    ensures Sourced(s, AnswerOrDeferCq(s, t.callB, r, grid, km, now), t, r, now)
  {
    var s' := AnswerOrDeferCq(s, t.callB, r, grid, km, now);
    if s.station.pro.enabled && s.station.pro.DefersCqPick() {
      forall c | c in s'.cqBuf ensures c in s.cqBuf || HeardAs(c, t.callB, r) {
        if c in Prune(s.cqBuf, now.wall) { PrunedAreRecent(s.cqBuf, now.wall, c); }
      }
    } else {
      CqAnswerBegins(s, t.callB, grid, r.audioHz, r.snr, r.cycle, now);
    }
  }

  lemma CqSourced(s: Operator, t: Triplet, r: Report, now: Clock)
    requires t.IsCq()
    ensures Sourced(s, MaybeAnswerCq(s, t, r, now), t, r, now)
  {
    var s0 := AskCooldown(s, t.callB, now);
    var (grid, km) := ResolveGridDist(s0, r, t.callB, t.third);
    var s1 := NoteIntel(s0, t.callB, grid, r.snr, km);
    DeferSourced(s1, t, r, grid, km, now);
    SourcedAfter(s, s1, AnswerOrDeferCq(s1, t.callB, r, grid, km, now), t, r, now);
  }

  lemma UnclaimedSourced(s: Operator, t: Triplet, r: Report, now: Clock)
    ensures Sourced(s, HandleUnclaimed(s, t, r, now), t, r, now)
  {
    if t.IsCq() { CqSourced(s, t, r, now); }
    else if t.callB == s.station.me { IncomingSourced(s, t.third, t, r, t.callA, now); }
  }

  predicate Undecided(s: Operator, s0: Operator) {
    && s0.hist.begun == s.hist.begun && s0.epoch == s.epoch && s0.station == s.station
    && s0.cqBuf == s.cqBuf && s0.inBuf == s.inBuf && s0.defaultHz == s.defaultHz
    && (s0.active.Some? ==> SameContact(s, s0))
  }

  lemma CallerUndecided(s: Operator, third: string, r: Report, call: string, now: Clock)
    ensures !ProcessIncoming(s, third, r, call, now).1 ==> Undecided(s, ProcessIncoming(s, third, r, call, now).0)
  {
    var (grid, km) := ResolveGridDist(s, r, call, third);
    var s0 := NoteIntel(s, call, grid, r.snr, km);
    assert Undecided(s, s0);
    UnansweredSame(s0, third, r, call, grid, km, now);
  }

  lemma UnansweredSame(s: Operator, third: string, r: Report, call: string, grid: string, km: Option<real>, now: Clock)
    ensures !AnswerCaller(s, third, r, call, grid, km, now).1 ==> AnswerCaller(s, third, r, call, grid, km, now).0 == s
  {}

  /** What the first rule leaves unclaimed has begun nothing. */
  lemma UnhandledSame(s: Operator, t: Triplet, r: Report, incoming: string, now: Clock)
    ensures !PreemptOrBuffer(s, t, r, incoming, now).1 ==> Undecided(s, PreemptOrBuffer(s, t, r, incoming, now).0)
  {
    CallerUndecided(s, t.third, r, incoming, now);
    CallerUndecided(DropActive(s), t.third, r, incoming, now);
  }

  lemma OtherSourced(s: Operator, t: Triplet, r: Report, now: Clock)
    ensures Sourced(s, HandleOther(s, t, r, now), t, r, now)
  {
    var incoming := DetectIncoming(s, t);
    if incoming.None? {
      UnclaimedSourced(s, t, r, now);
    } else {
      PreemptSourced(s, t, r, incoming.value, now);
      UnhandledSame(s, t, r, incoming.value, now);
      var s0 := PreemptOrBuffer(s, t, r, incoming.value, now).0;
      UnclaimedSourced(s0, t, r, now);
      if !PreemptOrBuffer(s, t, r, incoming.value, now).1 {
        SourcedAfter(s, s0, HandleUnclaimed(s0, t, r, now), t, r, now);
      }
    }
  }

  predicate NothingStarted(s: Operator, s': Operator) {
    NoneBegun(s, s') && s'.cqBuf == s.cqBuf && s'.inBuf == s.inBuf
  }

  lemma PartnerStartsNothing(s: Operator, third: string, snr: int, now: Clock)
    requires s.active.Some?
    ensures NothingStarted(s, PartnerGrid(s, third, snr, now)) && NothingStarted(s, PartnerReport(s, third, snr, now))
  {}

  lemma ClosingStartsNothing(s: Operator, now: Clock)
    requires s.active.Some?
    ensures NothingStarted(s, PartnerRoger(s, now)) && NothingStarted(s, PartnerBye(s, now))
  {}

  lemma ExchangeSourced(s: Operator, t: Triplet, r: Report, now: Clock)
    requires s.active.Some?
    ensures var (s', handled) := HandleActive(s, t, r, now);
            (!handled ==> s' == s) && NothingStarted(s, s')
  {
    PartnerStartsNothing(s, t.third, r.snr, now);
    ClosingStartsNothing(s, now);
    ExchangeCases(s, t, r, now);
  }

  lemma ExchangeCases(s: Operator, t: Triplet, r: Report, now: Clock)
    requires s.active.Some?
    ensures var (s', handled) := HandleActive(s, t, r, now);
            || s' == s
            || (handled && (s' == PartnerGrid(s, t.third, r.snr, now) || s' == PartnerReport(s, t.third, r.snr, now)
                            || s' == PartnerRoger(s, now) || s' == PartnerBye(s, now)))
  {}

  lemma TripletSourced(s: Operator, t: Triplet, r: Report, now: Clock)
    ensures Sourced(s, HandleTriplet(s, t, r, now), t, r, now)
  {
    OtherSourced(s, t, r, now);
    if s.active.Some? { ExchangeSourced(s, t, r, now); }
  }

  /** The tone a decode leaves when it begins nothing: that of the decode, on the
      6.25 Hz grid, between contacts and within 300 to 3000 Hz, unless it is our CQ. */
  predicate ToneFollows(s: Operator, s': Operator, t: Triplet, r: Report) {
    s'.defaultHz == if (s.phase == Idle || s.phase == CallingCq) && 300.0 <= r.audioHz <= 3000.0
                       && !(t.callA == "CQ" && t.callB == s.station.me) then Snap(r.audioHz) else s.defaultHz
  }

  /** The decode is one the operator listens to. */
  predicate Listens(s: Operator, r: Report, now: Clock) { s.armed && Recent(r.cycle, now) }

  /** A contact is begun only with the station heard; otherwise the tone may follow. */
  predicate DecodeOrigin(s: Operator, s': Operator, t: Triplet, r: Report, now: Clock) {
    && (if s'.hist.begun == s.hist.begun
        then ToneFollows(s, s', t, r) && (s'.active.Some? ==> SameContact(s, s'))
        else BegunWith(s, s', t, r, now))
    && Stocks(s.cqBuf, s'.cqBuf, t, r) && Stocks(s.inBuf, s'.inBuf, t, r)
  }

  lemma ToneThenRest(s: Operator, s': Operator, t: Triplet, r: Report, now: Clock)
    requires Sourced(AdoptCqHz(s, t, r), s', t, r, now)
    ensures DecodeOrigin(s, s', t, r, now)
  {}

  lemma StaleOrDisarmed(s: Operator, r: Report, now: Clock)
    requires !Listens(s, r, now)
    ensures OnDecode(s, r, now) == s
  {
    if r.cycle.Slot? { FreshnessGap(r.cycle.start, now.wall); }
  }

  lemma ListenedTo(s: Operator, r: Report, t: Triplet, now: Clock)
    requires MessageTriplet(r.message) == Fields(t) && Listens(s, r, now)
    ensures var s1, s' := AdoptCqHz(s, t, r), OnDecode(s, r, now); s' == s1 || s' == HandleTriplet(s1, t, r, now)
  {
    if r.cycle.Slot? { FreshnessGap(r.cycle.start, now.wall); }
  }

  lemma NothingIsSourced(s: Operator, t: Triplet, r: Report, now: Clock)
    ensures Sourced(s, s, t, r, now)
  {}

  /** A decode the operator listens to begins a contact only with the station it
      is from, and then on the tone it was heard on and in the period after the one it
      was heard in; only what it says is kept for later. Any other does nothing. */
  lemma DecodeBegins(s: Operator, r: Report, t: Triplet, now: Clock)
    requires MessageTriplet(r.message) == Fields(t)
    ensures if Listens(s, r, now) then DecodeOrigin(s, OnDecode(s, r, now), t, r, now) else OnDecode(s, r, now) == s
  {
    if Listens(s, r, now) {
      var s1 := AdoptCqHz(s, t, r);
      ListenedTo(s, r, t, now);
      NothingIsSourced(s1, t, r, now);
      TripletSourced(s1, t, r, now);
      ToneThenRest(s, OnDecode(s, r, now), t, r, now);
    } else {
      StaleOrDisarmed(s, r, now);
    }
  }

  // -------------------------------------------------------------- cycle calls

  lemma FromBuffersAfter(s: Operator, s0: Operator, s': Operator, now: Clock)
    requires FromBuffers(s0, s', now) && s0.hist.begun == s.hist.begun && s.epoch <= s0.epoch
    requires s0.station == s.station && s0.defaultHz == s.defaultHz && (s0.active.Some? ==> SameContact(s, s0))
    requires forall c :: c in s0.cqBuf ==> c in s.cqBuf
    requires forall c :: c in s0.inBuf ==> c in s.inBuf
    ensures FromBuffers(s, s', now)
  {
    if !NoneBegun(s0, s') {
      if c :| c in s0.cqBuf && BegunFrom(s0, s', CqAnswer, c, now) {
        assert BegunFrom(s, s', CqAnswer, c, now);
      } else {
        var c :| c in s0.inBuf && BegunFrom(s0, s', IncomingCall, c, now);
        assert BegunFrom(s, s', IncomingCall, c, now);
      }
    }
  }

  lemma CountedBegins(s: Operator, now: Clock)
    requires s.active.Some?
    ensures FromBuffers(s, ActiveCycle(s, now), now) && Kept(s, ActiveCycle(s, now))
  {
    ActiveCycleCases(s, now);
    var s0 := Abandoned(Counted(s), now);
    FlushedCaller(s0, now);
    FromBuffersAfter(s, s0, FlushIncoming(s0, now).0, now);
  }

  lemma RelabelledFlush(s: Operator, s': Operator, key: CycleTag, flushed: bool, now: Clock)
    requires Flushes(s, s', flushed, now)
    ensures Flushes(s, s'.(lastCycle := key), flushed, now)
  {
    var s1 := s'.(lastCycle := key);
    if !NoneBegun(s, s') {
      if c :| c in s.cqBuf && BegunFrom(s, s', CqAnswer, c, now) {
        assert BegunFrom(s, s1, CqAnswer, c, now);
      } else {
        var c :| c in s.inBuf && BegunFrom(s, s', IncomingCall, c, now);
        assert BegunFrom(s, s1, IncomingCall, c, now);
      }
    }
  }

  lemma FlushBegins(s: Operator, key: CycleTag, now: Clock)
    ensures var (s1, flushed) := FlushOnNewCycle(s, key, now); Flushes(s, s1, flushed, now)
  {
    if key != s.lastCycle {
      var (s', flushed) := FlushBuffer(s, now);
      if s.cqOnly { FlushedCaller(s, now); } else { FlushedCq(s, now); }
      RelabelledFlush(s, s', key, flushed, now);
    }
  }

  lemma TickBegins(s: Operator, slot: int, now: Clock)
    requires s.active.None?
    ensures NoneBegun(s, TickCq(WithCqPeriod(s, slot), slot, now))
    ensures Kept(s, TickCq(WithCqPeriod(s, slot), slot, now))
  {}

  /** A cycle call begins a contact only with a station kept from a decode and
      recent enough, on its tone and in the other period than it was heard in. */
  lemma CycleBegins(s: Operator, key: CycleTag, now: Clock)
    ensures FromBuffers(s, OnCycle(s, key, now), now) && Kept(s, OnCycle(s, key, now))
  {
    if s.armed {
      OnCycleCases(s, key, now);
      FlushBegins(s, key, now);
      var s1 := FlushOnNewCycle(s, key, now).0;
      if s1.active.None? {
        TickBegins(s1, PeriodAt(now.wall), now);
      } else if s.active.Some? {
        CountedBegins(s1, now);
        FromBuffersAfter(s, s1, ActiveCycle(s1, now), now);
      }
    }
  }

  // --------------------------------------------------------------- whole runs

  /** The event is a decode that says this of a station. */
  predicate HeardIn(e: Event, c: Candidate) {
    && e.Decode? && MessageTriplet(e.r.message).Fields?
    && var t := MessageTriplet(e.r.message).value;
    HeardAs(c, t.callA, e.r) || HeardAs(c, t.callB, e.r)
  }

  predicate InBuffers(s: Operator, c: Candidate) { c in s.cqBuf || c in s.inBuf }

  lemma StepKeepsOrHears(y: System, e: Event, c: Candidate)
    requires InBuffers(Step(y, e).op, c)
    ensures InBuffers(y.op, c) || HeardIn(e, c)
  {
    match e
    case Decode(r, now) =>
      if MessageTriplet(r.message).Fields? { DecodeBegins(y.op, r, MessageTriplet(r.message).value, now); }
    case Cycle(key, now) => CycleBegins(y.op, key, now);
    case _ => CommandsStockNothing(y, e, c);
  }

  lemma CommandsStockNothing(y: System, e: Event, c: Candidate)
    requires !e.Decode? && !e.Cycle? && InBuffers(Step(y, e).op, c)
    ensures InBuffers(y.op, c)
  {}

  /** Every candidate waiting in any reachable state was decoded before. */
  lemma {:induction false} BuffersWereHeard(ys: seq<System>, es: seq<Event>, n: nat, c: Candidate) returns (k: nat)
    requires |ys| == |es| + 1 && n <= |es| && InBuffers(ys[n].op, c)
    requires IsRun(ys, es)
    ensures k < n && HeardIn(es[k], c)
  {
    assert n > 0;
    StepKeepsOrHears(ys[n - 1], es[n - 1], c);
    if InBuffers(ys[n - 1].op, c) { k := BuffersWereHeard(ys, es, n - 1, c); } else { k := n - 1; }
  }

  /** The event, not later than event n, is a decode in which this call stands. */
  predicate SaidBefore(es: seq<Event>, k: nat, n: nat, call: string) {
    && k <= n < |es| && es[k].Decode? && MessageTriplet(es[k].r.message).Fields?
    && var t := MessageTriplet(es[k].r.message).value; call == t.callA || call == t.callB
  }

  /** In any run, whatever the operator begins by itself answers a decode of that
      or an earlier step: a contact with a station named there, on the tone of that
      decode, in the period other than that decode's; one begun later, at the start
      of a cycle, within 32 whole seconds of that decode's slot. */
  lemma ContactsAnswerDecodes(ys: seq<System>, es: seq<Event>, n: nat) returns (k: nat, call: string, how: Origin)
    requires |ys| == |es| + 1 && n < |es| && !es[n].Engage?
    requires ys[n + 1].op.hist.begun != ys[n].op.hist.begun
    requires IsRun(ys, es)
    ensures SaidBefore(es, k, n, call) && HasClock(es[n]) && Recent(es[k].r.cycle, es[n].now)
    ensures Begun(ys[n].op, ys[n + 1].op, how, call, es[k].r.audioHz, es[k].r.cycle, es[n].now)
  {
    var s, s' := ys[n].op, ys[n + 1].op;
    CommandsBeginNothing(ys[n], es[n]);
    if es[n].Decode? {
      var r, now := es[n].r, es[n].now;
      assert MessageTriplet(r.message).Fields?;
      var t := MessageTriplet(r.message).value;
      DecodeBegins(s, r, t, now);
      k := n;
      call, how := AnsweredNow(s, s', t, r, now);
    } else {
      CycleBegins(s, es[n].key, es[n].now);
      var c: Candidate;
      c, how := AnsweredLater(s, s', es[n].now);
      k := BuffersWereHeard(ys, es, n, c);
      call := c.call;
    }
  }

  lemma AnsweredNow(s: Operator, s': Operator, t: Triplet, r: Report, now: Clock) returns (call: string, how: Origin)
    requires BegunWith(s, s', t, r, now)
    ensures (call == t.callA || call == t.callB) && Begun(s, s', how, call, r.audioHz, r.cycle, now)
  {
    how := if t.callA == "CQ" && Begun(s, s', CqAnswer, t.callB, r.audioHz, r.cycle, now) then CqAnswer
           else IncomingCall;
    call := if how == CqAnswer then t.callB
            else if t.callB == s.station.me && Begun(s, s', how, t.callA, r.audioHz, r.cycle, now) then t.callA
            else t.callB;
  }

  lemma AnsweredLater(s: Operator, s': Operator, now: Clock) returns (c: Candidate, how: Origin)
    requires FromBuffers(s, s', now) && s'.hist.begun != s.hist.begun
    ensures InBuffers(s, c) && BegunFrom(s, s', how, c, now)
  {
    if d :| d in s.cqBuf && BegunFrom(s, s', CqAnswer, d, now) {
      c, how := d, CqAnswer;
    } else {
      c, how :| c in s.inBuf && how == IncomingCall && BegunFrom(s, s', how, c, now);
    }
  }

  lemma CommandsBeginNothing(y: System, e: Event)
    ensures e.Decode? || e.Cycle? || e.Engage? || Step(y, e).op.hist.begun == y.op.hist.begun
  {}
}

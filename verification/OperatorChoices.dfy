/** Whom the operator answers when no contact is in progress or one gives way. */
module OperatorChoices {
  import opened Base
  import opened Protocol
  import opened SlotClock
  import opened OperatorTypes
  import opened OperatorSteps
  import opened ProtocolProofs
  import opened OperatorProofs
  import opened OperatorDrops
  import opened OperatorOrigins
  import opened OperatorEffects

  // ------------------------------------------------- what is known of a station

  /** The grid of a call: the one just sent, else the one remembered, else that of the
      tables; and its distance: remembered, else the grid's, else that of the tables. */
  lemma WhatIsKnown(s: Operator, r: Report, call: string, third: string)
    ensures var (grid, km) := ResolveGridDist(s, r, call, third);
            var c := CallKey(call);
            var told := if IsGridToken(third) then Grid4Upper(third)
                        else if c in s.intel.grids then s.intel.grids[c] else "";
            && grid == (if told != "" then told else r.geoGrid)
            && km == (if c in s.intel.kms then Some(s.intel.kms[c])
                      else if told != "" && r.gridKm.Some? then r.gridKm else r.geoKm)
  {}

  /** What is heard of a call replaces what was remembered of it, piece by piece, and
      nothing remembered of other calls. */
  lemma HearingIsRemembered(i: Intel, call: string, grid: string, snr: int, km: Option<real>, other: string)
    ensures var i', same := NoteDecode(i, call, grid, snr, km), CallKey(other) == CallKey(call);
            && GridFor(i', other) == (if same && grid != "" then Grid4Upper(grid) else GridFor(i, other))
            && KmFor(i', other) == (if same && km.Some? then km else KmFor(i, other))
            && (same ==> CallKey(other) in i'.snrs && i'.snrs[CallKey(other)] == snr)
            && (!same ==> (CallKey(other) in i'.snrs <==> CallKey(other) in i.snrs))
            && (!same && CallKey(other) in i.snrs ==> i'.snrs[CallKey(other)] == i.snrs[CallKey(other)])
  {}

  /** The state once a station has been heard: only with the professional options on
      is anything remembered. */
  function Remembering(s: Operator, call: string, grid: string, snr: int, km: Option<real>): Operator {
    if s.station.pro.enabled then s.(intel := NoteDecode(s.intel, call, grid, snr, km)) else s
  }

  /** The first message of the contact just begun, and what is noted with it. */
  predicate Opening(s: Operator, s': Operator, call: string, grid: string, third: string, sent: string, rcvd: string)
    requires s'.active.Some? && s'.lastTx.Some?
  {
    && s'.lastTx.value == Message(call, s.station.me, third)
    && s'.active.value.rstSent == sent && s'.active.value.rstRcvd == rcvd
    && s'.active.value.grid == if grid != "" then Grid4Upper(grid) else GridFor(s.intel, CallKey(call))
  }

  lemma OpenedSays(
    s: Operator, how: Origin, call: string, grid: string, heard: int, sent: string, rcvd: string, third: string,
    hz: real, now: Clock)
    ensures var s' := Opened(s, how, call, grid, heard, sent, rcvd, third, hz, hz, now);
            && s'.active.Some? && s'.lastTx.Some? && Opening(s, s', call, grid, third, sent, rcvd)
            && Rest(s, s')
  {}

  /** What a contact begun leaves as it was. */
  predicate Rest(s: Operator, s': Operator) {
    && s'.station == s.station && s'.armed == s.armed && s'.intel == s.intel && s'.cooldown == s.cooldown
    && s'.cqBuf == s.cqBuf && s'.inBuf == s.inBuf && s'.cqOnly == s.cqOnly && s'.lastCycle == s.lastCycle
    && s'.cqPeriod == s.cqPeriod && s'.hist == s.hist.(begun := s'.hist.begun)
  }

  predicate StrongFirst(pro: ProConfig) { pro.enabled && pro.priority == StrongFast }

  // ------------------------------------------------------------- a CQ is heard

  predicate Cooling(s: Operator, call: string, now: Clock) {
    CallKey(call) in s.cooldown && now.mono < s.cooldown[CallKey(call)]
  }

  /** A CQ worth answering: CQs are answered at all, the call is a call not worked
      today nor cooling down, and it was heard neither too weakly nor too strongly. */
  predicate Wanted(s: Operator, call: string, r: Report, now: Clock) {
    && !s.cqOnly && ValidRemoteCall(call) && !r.worked && !Cooling(s, call, now)
    && (if s.station.pro.enabled then s.station.pro.minSnr <= r.snr <= s.station.pro.maxSnr
        else s.station.cqMinSnr <= r.snr)
  }

  /** Answers are put off to the start of the next cycle. */
  predicate PutsOff(pro: ProConfig) { pro.enabled && pro.priority != StrongFast && pro.deferCqPick }

  /** A free operator hears somebody's CQ. */
  predicate HearsCq(s: Operator, r: Report, t: Triplet, now: Clock) {
    && Listens(s, r, now) && s.active.None? && MessageTriplet(r.message) == Fields(t)
    && t.callA == "CQ" && s.station.me != "CQ"
  }

  lemma CqIsConsidered(s: Operator, r: Report, t: Triplet, now: Clock)
    requires HearsCq(s, r, t, now)
    ensures OnDecode(s, r, now) == MaybeAnswerCq(AdoptCqHz(s, t, r), t, r, now)
  {
    CqIsNoRemote();
    if r.cycle.Slot? { FreshnessGap(r.cycle.start, now.wall); }
    var s1 := AdoptCqHz(s, t, r);
    assert DetectIncoming(s1, t).None?;
    assert HandleOther(s1, t, r, now) == MaybeAnswerCq(s1, t, r, now);
  }

  /** A CQ not worth answering starts, keeps and notes nothing; a cooldown found to
      have expired is forgotten. */
  lemma UnwantedCq(s: Operator, r: Report, t: Triplet, now: Clock)
    requires HearsCq(s, r, t, now) && !Wanted(s, t.callB, r, now)
    ensures var s' := OnDecode(s, r, now); s' == s.(defaultHz := s'.defaultHz, cooldown := s'.cooldown)
  {
    CqIsConsidered(s, r, t, now);
  }

  /** The contact with the station that called CQ has begun with our grid, or with
      our report in the fast mode if its grid is known. */
  predicate AnswersCq(s: Operator, s': Operator, call: string, r: Report, grid: string, now: Clock) {
    var fast := StrongFirst(s.station.pro) && Grid4Upper(grid) != "";
    && Begun(s, s', CqAnswer, call, r.audioHz, r.cycle, now)
    && Opening(s, s', call, grid, if fast then SnrText(r.snr) else s.station.grid4,
               if fast then SnrText(r.snr) else "", "")
    && s'.intel == s.intel && s'.cqBuf == s.cqBuf
  }

  lemma AnswerSays(s: Operator, call: string, r: Report, grid: string, now: Clock)
    requires !CoolingDown(s.cooldown, call, now.mono)
    ensures AnswersCq(s, AnswerCq(s, call, grid, r.audioHz, r.snr, r.cycle, now), call, r, grid, now)
  {
    CqAnswerBegins(s, call, grid, r.audioHz, r.snr, r.cycle, now);
    AnswerCqOpens(s, call, grid, r.audioHz, r.snr, r.cycle, now);
    var fast := StrongFirst(s.station.pro) && Grid4Upper(grid) != "";
    OpenedSays(AskCooldown(s, call, now), CqAnswer, call, grid, HeardPeriod(r.cycle, now),
               if fast then SnrText(r.snr) else "", "", if fast then SnrText(r.snr) else s.station.grid4,
               r.audioHz, now);
  }

  /** The state in which a wanted CQ is answered or kept. */
  function Considering(s: Operator, r: Report, t: Triplet, now: Clock): Operator {
    var (grid, km) := ResolveGridDist(s, r, t.callB, t.third);
    Remembering(AskCooldown(AdoptCqHz(s, t, r), t.callB, now), t.callB, grid, r.snr, km)
  }

  lemma FiltersPassed(s: Operator, t: Triplet, r: Report, now: Clock)
    requires s.active.None? && Wanted(s, t.callB, r, now)
    ensures var s0 := AskCooldown(s, t.callB, now);
            var (grid, km) := ResolveGridDist(s0, r, t.callB, t.third);
            MaybeAnswerCq(s, t, r, now)
            == AnswerOrDeferCq(NoteIntel(s0, t.callB, grid, r.snr, km), t.callB, r, grid, km, now)
  {}

  lemma WantedPasses(s: Operator, t: Triplet, r: Report, now: Clock)
    requires s.active.None? && Wanted(s, t.callB, r, now)
    ensures var (grid, km) := ResolveGridDist(s, r, t.callB, t.third);
            MaybeAnswerCq(s, t, r, now)
            == AnswerOrDeferCq(Remembering(AskCooldown(s, t.callB, now), t.callB, grid, r.snr, km), t.callB, r, grid,
                               km, now)
  {
    FiltersPassed(s, t, r, now);
    AskingAside(s, r, t, now);
  }

  lemma AskingAside(s: Operator, r: Report, t: Triplet, now: Clock)
    ensures ResolveGridDist(AskCooldown(s, t.callB, now), r, t.callB, t.third)
         == ResolveGridDist(s, r, t.callB, t.third)
  {}

  lemma WantedIsConsidered(s: Operator, r: Report, t: Triplet, now: Clock)
    requires HearsCq(s, r, t, now) && Wanted(s, t.callB, r, now)
    ensures var s1, (grid, km) := Considering(s, r, t, now), ResolveGridDist(s, r, t.callB, t.third);
            OnDecode(s, r, now) == AnswerOrDeferCq(s1, t.callB, r, grid, km, now)
  {
    CqIsConsidered(s, r, t, now);
    var s0 := AdoptCqHz(s, t, r);
    ToneAside(s, s0, r, t, now);
    WantedPasses(s0, t, r, now);
  }

  /** The tone has no say in whom we answer. */
  lemma ToneAside(s: Operator, s0: Operator, r: Report, t: Triplet, now: Clock)
    requires s0 == s.(defaultHz := s0.defaultHz)
    ensures Wanted(s0, t.callB, r, now) <==> Wanted(s, t.callB, r, now)
    ensures ResolveGridDist(s0, r, t.callB, t.third) == ResolveGridDist(s, r, t.callB, t.third)
  {}

  lemma Considered(s: Operator, r: Report, t: Triplet, now: Clock)
    requires Wanted(s, t.callB, r, now)
    ensures var s1, (grid, km) := Considering(s, r, t, now), ResolveGridDist(s, r, t.callB, t.third);
            && s1 == s.(defaultHz := s1.defaultHz, cooldown := s1.cooldown, intel := s1.intel)
            && s1.intel == Remembering(s, t.callB, grid, r.snr, km).intel
            && !CoolingDown(s1.cooldown, t.callB, now.mono)
  {}

  /** A CQ worth answering is answered at once, unless answers are put off. */
  lemma WantedCqIsAnswered(s: Operator, r: Report, t: Triplet, now: Clock)
    requires HearsCq(s, r, t, now) && Wanted(s, t.callB, r, now) && !PutsOff(s.station.pro)
    ensures var (grid, km) := ResolveGridDist(s, r, t.callB, t.third);
            AnswersCq(Remembering(s, t.callB, grid, r.snr, km), OnDecode(s, r, now), t.callB, r, grid, now)
  {
    var (grid, km) := ResolveGridDist(s, r, t.callB, t.third);
    var s1 := Considering(s, r, t, now);
    WantedIsConsidered(s, r, t, now);
    Considered(s, r, t, now);
    AnswerSays(s1, t.callB, r, grid, now);
    assert OnDecode(s, r, now) == AnswerCq(s1, t.callB, grid, r.audioHz, r.snr, r.cycle, now);
    AnswersAlike(s1, Remembering(s, t.callB, grid, r.snr, km), OnDecode(s, r, now), t.callB, r, grid, now);
  }

  lemma AnswersAlike(s1: Operator, s0: Operator, s': Operator, call: string, r: Report, grid: string, now: Clock)
    requires AnswersCq(s1, s', call, r, grid, now)
    requires s1 == s0.(defaultHz := s1.defaultHz, cooldown := s1.cooldown)
    ensures AnswersCq(s0, s', call, r, grid, now)
  {}

  /** Our own CQ, heard back, is no exception: a contact with ourselves begins exactly
      when it passes the same filters. */
  lemma OwnCqIsAnswered(s: Operator, r: Report, t: Triplet, now: Clock)
    requires HearsCq(s, r, t, now) && t.callB == s.station.me && !PutsOff(s.station.pro)
    ensures var s' := OnDecode(s, r, now);
            if Wanted(s, s.station.me, r, now) then
              Begun(s, s', CqAnswer, s.station.me, r.audioHz, r.cycle, now)
            else s'.active.None? && s'.hist.begun == s.hist.begun
  {
    if Wanted(s, t.callB, r, now) {
      WantedCqIsAnswered(s, r, t, now);
    } else {
      UnwantedCq(s, r, t, now);
    }
  }

  /** The CQ names a region that is not ours. */
  predicate ForOthers(message: string, euHome: bool) {
    var words := Split(Upper(Strip(message)));
    |words| >= 2 && words[0] == "CQ" && (words[1] == "EU" || words[1] == "EUROPE") && !euHome
  }

  predicate FarEnough(pro: ProConfig, km: Option<real>) {
    pro.minDistanceKm <= 0.0 || (km.Some? && km.value >= pro.minDistanceKm)
  }

  /** The candidate a decode makes of a station. */
  predicate Describes(c: Candidate, call: string, r: Report, grid: string, km: Option<real>, pro: ProConfig) {
    && HeardAs(c, call, r) && c.grid == (if grid != "" then Grid4Upper(grid) else "") && c.distanceKm == km
    && c.score == ScoreOf(pro, r.snr, km, grid)
  }

  /** Put off, it is kept with what is known of it after those still recent, unless it
      is too near or for another region. */
  lemma WantedCqIsKept(s: Operator, r: Report, t: Triplet, now: Clock)
    requires HearsCq(s, r, t, now) && Wanted(s, t.callB, r, now) && PutsOff(s.station.pro)
    ensures var s', (grid, km) := OnDecode(s, r, now), ResolveGridDist(s, r, t.callB, t.third);
            && s' == s.(defaultHz := s'.defaultHz, cooldown := s'.cooldown, cqBuf := s'.cqBuf, intel := s'.intel)
            && s'.intel == Remembering(s, t.callB, grid, r.snr, km).intel
            && if FarEnough(s.station.pro, km) && !ForOthers(r.message, s.station.euHome) then
                 && |s'.cqBuf| > 0 && Describes(s'.cqBuf[|s'.cqBuf| - 1], t.callB, r, grid, km, s.station.pro)
                 && s'.cqBuf[..|s'.cqBuf| - 1] == Prune(s.cqBuf, now.wall)
               else s'.cqBuf == s.cqBuf
  {
    var (grid, km) := ResolveGridDist(s, r, t.callB, t.third);
    WantedIsConsidered(s, r, t, now);
    Considered(s, r, t, now);
    PutOffIsKept(Considering(s, r, t, now), t.callB, r, grid, km, now);
  }

  lemma PutOffIsKept(s: Operator, call: string, r: Report, grid: string, km: Option<real>, now: Clock)
    requires PutsOff(s.station.pro) && s.station.pro.minSnr <= r.snr <= s.station.pro.maxSnr
    ensures var s' := AnswerOrDeferCq(s, call, r, grid, km, now);
            && s' == s.(cqBuf := s'.cqBuf)
            && if FarEnough(s.station.pro, km) && !ForOthers(r.message, s.station.euHome) then
                 && |s'.cqBuf| > 0 && Describes(s'.cqBuf[|s'.cqBuf| - 1], call, r, grid, km, s.station.pro)
                 && s'.cqBuf[..|s'.cqBuf| - 1] == Prune(s.cqBuf, now.wall)
               else s'.cqBuf == s.cqBuf
  {
    var c := ScoreCandidate(call, r, grid, km, false, s.station, true);
    assert DirectedCqMatch(r.message, s.station.euHome) <==> !ForOthers(r.message, s.station.euHome);
    assert c.Some? <==> FarEnough(s.station.pro, km) && !ForOthers(r.message, s.station.euHome);
  }

  // ------------------------------------------------------------- a caller

  /** Calls named with ours first are believed while calling CQ, while waiting in CQ
      mode, and in the professional modes while the contact is stuck. */
  predicate BelievesReversed(s: Operator) {
    s.armed && match s.phase
               case CallingCq => s.active.None?
               case Idle => s.active.None? && s.cqOnly
               case Active => s.active.Some? && s.station.pro.enabled && IsStuck(s.active.value)
               case Closing => false
  }

  /** The message is a call to us by `call`: it names us second, or first with a
      report or another square than ours, and is not our own. */
  predicate CalledBy(s: Operator, t: Triplet, call: string) {
    if t.callB == s.station.me && ValidRemoteCall(t.callA) then call == t.callA
    else
      && t.callA == s.station.me && call == t.callB && ValidRemoteCall(call) && BelievesReversed(s)
      && (IsReport(t.third) || IsGridToken(t.third)) && !Bye(t.third) && !IsRrr(t.third)
      && !(IsGridToken(t.third) && Prefix4(t.third) == s.station.grid4)
      && !OwnWords(s, t)
  }

  predicate PhasesAgree(s: Operator) { s.active.None? <==> s.phase == Idle || s.phase == CallingCq }

  lemma CallersAreDetected(s: Operator, t: Triplet, call: string)
    requires PhasesAgree(s)
    ensures DetectIncoming(s, t) == Some(call) <==> CalledBy(s, t, call)
  {}

  /** A station that displaces the contact: another one, while the professional
      options are on and the contact is stuck, and in the balanced mode not weaker by
      more than the margin than the partner was last heard. */
  predicate MayDisplace(s: Operator, call: string, snr: int) {
    && s.active.Some? && s.active.value.remote != call && s.station.pro.enabled && IsStuck(s.active.value)
    && (s.station.pro.priority == Balanced ==>
          var partner := CallKey(s.active.value.remote);
          snr as real + s.station.pro.preemptMarginDb
          >= if partner in s.intel.snrs then s.intel.snrs[partner] as real else -999.0)
  }

  lemma DisplacesExactly(s: Operator, call: string, snr: int)
    ensures Displaces(s, call, snr) <==> MayDisplace(s, call, snr)
  {}

  /** What a caller is answered with: our R-report to a report; nothing while its grid
      is unknown; in CQ mode it is kept if it passes the filters; and otherwise our
      grid, or our report in the fast mode. */
  predicate AnswersCall(
    s: Operator, s': Operator, third: string, r: Report, call: string, grid: string, km: Option<real>, now: Clock)
  {
    var g, rst := if grid != "" then grid else third, SnrText(r.snr);
    var fast := StrongFirst(s.station.pro) && Grid4Upper(g) != "";
    if IsReport(third) && !IsRReport(third) then
      Replies(s, s', r, call, grid, "R" + rst, rst, RstFromReport(third), now)
    else if !IsGridToken(third) && grid == "" then s' == s
    else if s.cqOnly then KeepsCall(s, s', r, call, grid, km, now)
    else Replies(s, s', r, call, g, if fast then rst else s.station.grid4, if fast then rst else "", "", now)
  }

  /** A contact with the caller has begun with this message and these reports. */
  predicate Replies(s: Operator, s': Operator, r: Report, call: string, grid: string, third: string, sent: string,
    rcvd: string, now: Clock)
  {
    && Begun(s, s', IncomingCall, call, r.audioHz, r.cycle, now)
    && Opening(s, s', call, grid, third, sent, rcvd) && Rest(s, s')
  }

  /** A call to us is answered with nothing if it says RR73 or 73, or comes from a
      station worked today and is no report; otherwise what is known of the caller is
      remembered and it is answered. */
  ghost predicate TakesCall(s: Operator, s': Operator, third: string, r: Report, call: string, now: Clock) {
    var (grid, km) := ResolveGridDist(s, r, call, third);
    if Bye(third) || (r.worked && !IsReport(third)) then s' == s
    else AnswersCall(Remembering(s, call, grid, r.snr, km), s', third, r, call, grid, km, now)
  }

  /** The caller is kept, after those still recent, if heard neither too weakly nor
      too strongly, far enough away, and not worked today unless that is allowed. */
  predicate KeepsCall(
    s: Operator, s': Operator, r: Report, call: string, grid: string, km: Option<real>, now: Clock)
  {
    var pro := s.station.pro;
    && s' == s.(inBuf := s'.inBuf)
    && if pro.minSnr <= r.snr <= pro.maxSnr && FarEnough(pro, km) && !(r.worked && pro.skipWorkedToday) then
         && |s'.inBuf| > 0 && Describes(s'.inBuf[|s'.inBuf| - 1], call, r, grid, km, pro)
         && s'.inBuf[..|s'.inBuf| - 1] == Prune(s.inBuf, now.wall)
       else s'.inBuf == s.inBuf
  }

  lemma ScoredIsKept(s: Operator, call: string, r: Report, grid: string, km: Option<real>, now: Clock)
    ensures KeepsCall(s, BufferScored(s, call, r, grid, km, now).0, r, call, grid, km, now)
  {}

  lemma ReplySays(s: Operator, call: string, grid: string, rx: string, skip: bool, r: Report, now: Clock)
    ensures var (third, sent, rcvd) := ReplyThird(s.station, rx, r.snr, skip);
            Replies(s, AnswerIncoming(s, call, grid, r.audioHz, rx, r.snr, r.cycle, skip, now), r, call, grid, third,
                    sent, rcvd, now)
  {
    CallerAnswerBegins(s, call, grid, r.audioHz, rx, r.snr, r.cycle, skip, now);
    AnswerIncomingOpens(s, call, grid, r.audioHz, rx, r.snr, r.cycle, skip, now);
    var (third, sent, rcvd) := ReplyThird(s.station, rx, r.snr, skip);
    OpenedSays(s, IncomingCall, call, grid, HeardPeriod(r.cycle, now), sent, rcvd, third, r.audioHz, now);
  }

  lemma ReplyThirds(st: Station, third: string, snr: int)
    ensures IsReport(third) && !IsRReport(third) ==>
              ReplyThird(st, third, snr, false) == ("R" + SnrText(snr), SnrText(snr), RstFromReport(third))
    ensures forall fast :: ReplyThird(st, "", snr, fast) ==
              (if fast then SnrText(snr) else st.grid4, if fast then SnrText(snr) else "", "")
  {}

  lemma CallerIsAnswered(s: Operator, third: string, r: Report, call: string, grid: string, km: Option<real>,
      now: Clock)
    ensures AnswersCall(s, AnswerCaller(s, third, r, call, grid, km, now).0, third, r, call, grid, km, now)
  {
    var g := if grid != "" then grid else third;
    ReplyThirds(s.station, third, r.snr);
    if IsReport(third) && !IsRReport(third) {
      ReplySays(s, call, grid, third, false, r, now);
    } else if IsGridToken(third) || grid != "" {
      ReplySays(s, call, g, "", StrongFirst(s.station.pro) && Grid4Upper(g) != "", r, now);
      ScoredIsKept(s, call, r, grid, km, now);
    }
  }

  lemma CallIsProcessed(s: Operator, third: string, r: Report, call: string, now: Clock)
    ensures TakesCall(s, ProcessIncoming(s, third, r, call, now).0, third, r, call, now)
  {
    var (grid, km) := ResolveGridDist(s, r, call, third);
    CallerIsAnswered(Remembering(s, call, grid, r.snr, km), third, r, call, grid, km, now);
  }

  /** The tone follows what is heard between contacts. */
  function Toned(s: Operator, t: Triplet, r: Report): Operator {
    if (s.phase == Idle || s.phase == CallingCq) && 300.0 <= r.audioHz <= 3000.0
       && !(t.callA == "CQ" && t.callB == s.station.me)
    then s.(defaultHz := Snap(r.audioHz)) else s
  }

  lemma CalledToned(s: Operator, t: Triplet, r: Report, call: string)
    requires PhasesAgree(s) && CalledBy(s, t, call)
    ensures AdoptCqHz(s, t, r) == Toned(s, t, r) && CalledBy(Toned(s, t, r), t, call) && PhasesAgree(Toned(s, t, r))
  {}

  lemma CallerNotIgnored(s: Operator, t: Triplet, call: string)
    requires PhasesAgree(s) && CalledBy(s, t, call) && call != s.station.me
    ensures !IgnoresMeFirst(s, t)
  {
    CallersAreDetected(s, t, call);
  }

  /** Asked a second time about a caller left unanswered, nothing more happens. */
  lemma UnansweredTwice(s: Operator, third: string, r: Report, call: string, now: Clock)
    ensures var (s', handled) := ProcessIncoming(s, third, r, call, now);
            !handled ==> ProcessIncoming(s', third, r, call, now).0 == s'
  {
    var (grid, km) := ResolveGridDist(s, r, call, third);
    var s0 := Remembering(s, call, grid, r.snr, km);
    if !ProcessIncoming(s, third, r, call, now).1 {
      assert grid == "" && s0 == ProcessIncoming(s, third, r, call, now).0;
      assert ResolveGridDist(s0, r, call, third) == (grid, km);
      RememberedTwice(s, call, r.snr, km);
    }
  }

  lemma RememberedTwice(s: Operator, call: string, snr: int, km: Option<real>)
    ensures var s0 := Remembering(s, call, "", snr, km); Remembering(s0, call, "", snr, km) == s0
  {
    var i, c := s.intel, CallKey(call);
    assert i.snrs[c := snr][c := snr] == i.snrs[c := snr];
    if km.Some? { assert i.kms[c := km.value][c := km.value] == i.kms[c := km.value]; }
  }

  /** Without a contact, a call goes through the rules for callers once. */
  lemma FreeIsOther(s: Operator, t: Triplet, r: Report, call: string, now: Clock)
    requires s.active.None? && PhasesAgree(s) && CalledBy(s, t, call) && call != s.station.me && s.station.me != "CQ"
    ensures HandleOther(s, t, r, now) == ProcessIncoming(s, t.third, r, call, now).0
  {
    CqIsNoRemote();
    CallersAreDetected(s, t, call);
    UnansweredTwice(s, t.third, r, call, now);
  }

  /** A call to us while no contact is in progress. */
  lemma CallIsTaken(s: Operator, r: Report, t: Triplet, call: string, now: Clock)
    requires Listens(s, r, now) && s.active.None? && PhasesAgree(s) && MessageTriplet(r.message) == Fields(t)
    requires CalledBy(s, t, call) && call != s.station.me && s.station.me != "CQ"
    ensures TakesCall(Toned(s, t, r), OnDecode(s, r, now), t.third, r, call, now)
  {
    var s1 := Toned(s, t, r);
    CalledToned(s, t, r, call);
    ListenedTo(s, r, t, now);
    CallerNotIgnored(s1, t, call);
    FreeIsOther(s1, t, r, call, now);
    CallIsProcessed(s1, t.third, r, call, now);
    assert OnDecode(s, r, now) == HandleOther(s1, t, r, now);
  }

  /** A call to us by another station while a contact is in progress, and no part of it. */
  predicate Interrupted(s: Operator, r: Report, t: Triplet, call: string, now: Clock) {
    && Overhears(s, r, t, now) && PhasesAgree(s) && CalledBy(s, t, call)
    && call != s.station.me && s.station.me != "CQ" && call != s.active.value.remote
    && !BetweenCalls(t, s.station.me, CallKey(s.active.value.remote))
    && (Bye(t.third) || !OwnWords(s, t)) && !(IsGridToken(t.third) && Prefix4(t.third) == s.station.grid4)
  }

  lemma InterruptedIsOther(s: Operator, r: Report, t: Triplet, call: string, now: Clock)
    requires Interrupted(s, r, t, call, now)
    ensures OnDecode(s, r, now) == HandleOther(s, t, r, now) && DetectIncoming(s, t) == Some(call)
  {
    CallersAreDetected(s, t, call);
    CallerNotIgnored(s, t, call);
    ListenedTo(s, r, t, now);
    assert AdoptCqHz(s, t, r) == s;
    NoPartOfExchange(s, t, r, now);
  }

  lemma NoPartOfExchange(s: Operator, t: Triplet, r: Report, now: Clock)
    requires s.active.Some? && !BetweenCalls(t, s.station.me, CallKey(s.active.value.remote))
    requires (Bye(t.third) || !OwnWords(s, t)) && !(IsGridToken(t.third) && Prefix4(t.third) == s.station.grid4)
    ensures HandleActive(s, t, r, now) == (s, false)
  {}

  /** The contact gives way, unlogged. */
  function GivenWay(s: Operator): Operator {
    s.(active := None, phase := Idle, hist := s.hist.(dropped := s.hist.dropped + 1))
  }

  lemma DisplacedIsOther(s: Operator, t: Triplet, r: Report, call: string, now: Clock)
    requires MayDisplace(s, call, r.snr) && DetectIncoming(s, t) == Some(call) && !t.IsCq()
    requires (t.callB == s.station.me && t.callA == call) || (t.callA == s.station.me && t.callB == call)
    requires call != s.station.me
    ensures HandleOther(s, t, r, now) == ProcessIncoming(GivenWay(s), t.third, r, call, now).0
  {
    var s0 := GivenWay(s);
    assert PreemptOrBuffer(s, t, r, call, now) == ProcessIncoming(s0, t.third, r, call, now);
    UnansweredTwice(s0, t.third, r, call, now);
  }

  /** A caller that may displace a stuck contact takes its place, as if there had been
      none. */
  lemma CallDisplaces(s: Operator, r: Report, t: Triplet, call: string, now: Clock)
    requires Interrupted(s, r, t, call, now) && MayDisplace(s, call, r.snr)
    ensures TakesCall(GivenWay(s), OnDecode(s, r, now), t.third, r, call, now)
  {
    CqIsNoRemote();
    InterruptedIsOther(s, r, t, call, now);
    DisplacedIsOther(s, t, r, call, now);
    CallIsProcessed(GivenWay(s), t.third, r, call, now);
  }

  /** A caller too weak to displace a stuck contact is kept, unless it sends a report,
      RR73 or 73. */
  lemma CallIsKeptMeanwhile(s: Operator, r: Report, t: Triplet, call: string, now: Clock)
    requires Interrupted(s, r, t, call, now) && !MayDisplace(s, call, r.snr)
    requires s.station.pro.enabled && IsStuck(s.active.value)
    ensures var s', (grid, km) := OnDecode(s, r, now), ResolveGridDist(s, r, call, t.third);
            if Bye(t.third) || IsReport(t.third) then s' == s else KeepsCall(s, s', r, call, grid, km, now)
  {
    InterruptedIsOther(s, r, t, call, now);
    WeakIsBuffered(s, t, r, call, now);
    NothingElseHeeded(s, t, r, now);
  }

  lemma WeakIsBuffered(s: Operator, t: Triplet, r: Report, call: string, now: Clock)
    requires s.active.Some? && call != s.active.value.remote && !MayDisplace(s, call, r.snr)
    requires s.station.pro.enabled && IsStuck(s.active.value)
    ensures var (s', handled), (grid, km) := PreemptOrBuffer(s, t, r, call, now), ResolveGridDist(s, r, call, t.third);
            && (!handled ==> s' == s)
            && if Bye(t.third) || IsReport(t.third) then !handled else KeepsCall(s, s', r, call, grid, km, now)
  {
    var (grid, km) := ResolveGridDist(s, r, call, t.third);
    ScoredIsKept(s, call, r, grid, km, now);
    WeakWaits(s, t, r, call, now);
    assert !BufferScored(s, call, r, grid, km, now).1 ==> BufferScored(s, call, r, grid, km, now).0 == s;
  }

  lemma WeakWaits(s: Operator, t: Triplet, r: Report, call: string, now: Clock)
    requires s.active.Some? && call != s.active.value.remote && !MayDisplace(s, call, r.snr)
    requires s.station.pro.enabled && IsStuck(s.active.value)
    ensures var (grid, km) := ResolveGridDist(s, r, call, t.third);
            PreemptOrBuffer(s, t, r, call, now) == if Bye(t.third) || IsReport(t.third) then (s, false)
                                                   else BufferScored(s, call, r, grid, km, now)
  {
    DisplacesExactly(s, call, r.snr);
  }

  lemma NothingElseHeeded(s: Operator, t: Triplet, r: Report, now: Clock)
    requires s.active.Some?
    ensures HandleUnclaimed(s, t, r, now) == s
  {}

  // ------------------------------------------------------- the start of a cycle

  /** A candidate that may still be answered. */
  predicate Answerable(c: Candidate, cooldown: map<string, real>, now: Clock) {
    && !c.cycle.NoCycle? && Recent(c.cycle, now)
    && !(CallKey(c.call) in cooldown && now.mono < cooldown[CallKey(c.call)])
  }

  /** The first of those with the highest score that may be answered. */
  predicate FirstBest(cs: seq<Candidate>, k: nat, cooldown: map<string, real>, now: Clock) {
    && k < |cs| && Answerable(cs[k], cooldown, now)
    && (forall i :: 0 <= i < |cs| && Answerable(cs[i], cooldown, now) ==> cs[i].score <= cs[k].score)
    && (forall i :: 0 <= i < k && Answerable(cs[i], cooldown, now) ==> cs[i].score < cs[k].score)
  }

  predicate NoneAnswerable(cs: seq<Candidate>, cooldown: map<string, real>, now: Clock) {
    forall i :: 0 <= i < |cs| ==> !Answerable(cs[i], cooldown, now)
  }

  function Chosen(cs: seq<Candidate>, cooldown: map<string, real>, now: Clock): Option<Candidate> {
    PickBest(Eligible(Prune(cs, now.wall), cooldown, now.mono))
  }

  lemma ChosenNext(front: seq<Candidate>, c: Candidate, cooldown: map<string, real>, now: Clock)
    ensures var best := Chosen(front, cooldown, now);
            Chosen(front + [c], cooldown, now) ==
              if Answerable(c, cooldown, now) && (best.None? || c.score > best.value.score) then Some(c) else best
  {
    PruneNext(front, c, now);
    var p := Prune(front, now.wall);
    EligibleNext(p, c, cooldown, now);
    PickNext(Eligible(p, cooldown, now.mono), c);
    assert p + [] == p;
    var e := Eligible(p, cooldown, now.mono);
    assert e + [] == e;
  }

  lemma PruneNext(front: seq<Candidate>, c: Candidate, now: Clock)
    ensures Prune(front + [c], now.wall)
         == Prune(front, now.wall) + if !c.cycle.NoCycle? && Recent(c.cycle, now) then [c] else []
  {
    if c.cycle.Slot? { FreshnessGap(c.cycle.start, now.wall); }
    assert (front + [c])[..|front|] == front;
  }

  lemma EligibleNext(front: seq<Candidate>, c: Candidate, cooldown: map<string, real>, now: Clock)
    ensures Eligible(front + [c], cooldown, now.mono)
         == Eligible(front, cooldown, now.mono)
            + if CallKey(c.call) in cooldown && now.mono < cooldown[CallKey(c.call)] then [] else [c]
  {
    assert (front + [c])[..|front|] == front;
  }

  lemma PickNext(front: seq<Candidate>, c: Candidate)
    ensures PickBest(front + [c]) == if PickBest(front).None? || c.score > PickBest(front).value.score then Some(c)
                                     else PickBest(front)
  {
    assert (front + [c])[..|front|] == front;
  }

  lemma BestStays(front: seq<Candidate>, c: Candidate, k: nat, cooldown: map<string, real>, now: Clock)
    requires FirstBest(front, k, cooldown, now) && (!Answerable(c, cooldown, now) || c.score <= front[k].score)
    ensures FirstBest(front + [c], k, cooldown, now)
  {}

  lemma BestIsNew(front: seq<Candidate>, c: Candidate, cooldown: map<string, real>, now: Clock)
    requires Answerable(c, cooldown, now)
    requires forall i :: 0 <= i < |front| && Answerable(front[i], cooldown, now) ==> front[i].score < c.score
    ensures FirstBest(front + [c], |front|, cooldown, now)
  {}

  lemma NoneStays(front: seq<Candidate>, c: Candidate, cooldown: map<string, real>, now: Clock)
    requires NoneAnswerable(front, cooldown, now) && !Answerable(c, cooldown, now)
    ensures NoneAnswerable(front + [c], cooldown, now)
  {}

  lemma {:induction false} ChosenIsFirstBest(cs: seq<Candidate>, cooldown: map<string, real>, now: Clock)
    returns (k: nat)
    ensures Chosen(cs, cooldown, now).None? ==> NoneAnswerable(cs, cooldown, now)
    ensures Chosen(cs, cooldown, now).Some? ==>
              FirstBest(cs, k, cooldown, now) && Chosen(cs, cooldown, now) == Some(cs[k])
  {
    k := 0;
    if cs != [] {
      var front, c := cs[..|cs| - 1], cs[|cs| - 1];
      assert cs == front + [c];
      ChosenNext(front, c, cooldown, now);
      var best := Chosen(front, cooldown, now);
      k := ChosenIsFirstBest(front, cooldown, now);
      if Answerable(c, cooldown, now) && (best.None? || c.score > best.value.score) {
        BestIsNew(front, c, cooldown, now);
        k := |front|;
      } else if best.Some? {
        BestStays(front, c, k, cooldown, now);
      } else {
        NoneStays(front, c, cooldown, now);
      }
    }
  }

  lemma {:induction false} NoneCooling(cs: seq<Candidate>, mono: real)
    ensures Eligible(cs, map[], mono) == cs
  {
    if cs != [] {
      NoneCooling(cs[..|cs| - 1], mono);
      assert cs == cs[..|cs| - 1] + [cs[|cs| - 1]];
    }
  }

  /** The contact begun with a candidate and its first message: our report if asked
      for or, to a CQ in the fast mode, if the grid is known; else our grid. */
  predicate TakesCandidate(s: Operator, s': Operator, how: Origin, c: Candidate, report: bool, now: Clock) {
    && Begun(s, s', how, c.call, c.audioHz, c.cycle, now)
    && Opening(s, s', c.call, c.grid, if report then SnrText(c.snr) else s.station.grid4,
               if report then SnrText(c.snr) else "", "")
  }

  lemma CqFlushEffect(s: Operator, now: Clock) returns (k: nat)
    requires s.active.None?
    ensures var s' := FlushCq(s, now).0;
            if NoneAnswerable(s.cqBuf, s.cooldown, now) then s' == s.(cqBuf := [], cooldown := s'.cooldown)
            else
              && FirstBest(s.cqBuf, k, s.cooldown, now) && s'.cqBuf == [] && FlushCq(s, now).1
              && TakesCandidate(s, s', CqAnswer, s.cqBuf[k],
                                StrongFirst(s.station.pro) && Grid4Upper(s.cqBuf[k].grid) != "", now)
  {
    k := ChosenIsFirstBest(s.cqBuf, s.cooldown, now);
    var buf := Prune(s.cqBuf, now.wall);
    if !NoneAnswerable(s.cqBuf, s.cooldown, now) {
      var c := s.cqBuf[k];
      var s1 := s.(cqBuf := [], cooldown := DropExpired(s.cooldown, KeysOf(buf), now.mono));
      assert !CoolingDown(s1.cooldown, c.call, now.mono);
      CandidateOpens(s1, c, now);
    }
  }

  lemma CandidateOpens(s: Operator, c: Candidate, now: Clock)
    requires !CoolingDown(s.cooldown, c.call, now.mono)
    ensures var s' := AnswerCq(s, c.call, c.grid, c.audioHz, c.snr, c.cycle, now);
            && TakesCandidate(s, s', CqAnswer, c, StrongFirst(s.station.pro) && Grid4Upper(c.grid) != "", now)
            && s'.cqBuf == s.cqBuf
  {
    CqAnswerBegins(s, c.call, c.grid, c.audioHz, c.snr, c.cycle, now);
    AnswerCqOpens(s, c.call, c.grid, c.audioHz, c.snr, c.cycle, now);
    var fast := StrongFirst(s.station.pro) && Grid4Upper(c.grid) != "";
    OpenedSays(AskCooldown(s, c.call, now), CqAnswer, c.call, c.grid, HeardPeriod(c.cycle, now),
               if fast then SnrText(c.snr) else "", "", if fast then SnrText(c.snr) else s.station.grid4,
               c.audioHz, now);
  }

  lemma CallerFlushEffect(s: Operator, now: Clock) returns (k: nat)
    requires s.active.None?
    ensures var s' := FlushIncoming(s, now).0;
            if NoneAnswerable(s.inBuf, map[], now) then s' == s.(inBuf := [])
            else
              && FirstBest(s.inBuf, k, map[], now) && s'.inBuf == [] && FlushIncoming(s, now).1
              && TakesCandidate(s, s', IncomingCall, s.inBuf[k], true, now)
  {
    k := ChosenIsFirstBest(s.inBuf, map[], now);
    NoneCooling(Prune(s.inBuf, now.wall), now.mono);
    if !NoneAnswerable(s.inBuf, map[], now) {
      var c, s1 := s.inBuf[k], s.(inBuf := []);
      CallerAnswerBegins(s1, c.call, c.grid, c.audioHz, "", c.snr, c.cycle, true, now);
      AnswerIncomingOpens(s1, c.call, c.grid, c.audioHz, "", c.snr, c.cycle, true, now);
      ReplyThirds(s.station, "", c.snr);
      OpenedSays(s1, IncomingCall, c.call, c.grid, HeardPeriod(c.cycle, now), SnrText(c.snr), "", SnrText(c.snr),
                 c.audioHz, now);
    }
  }

  /** The first call in a new cycle while no contact is in progress. */
  predicate FreeNewCycle(s: Operator, key: CycleTag) { s.armed && s.active.None? && key != s.lastCycle }

  /** Then the first best CQ put off that may still be answered is answered. */
  lemma CycleAnswersCq(s: Operator, key: CycleTag, now: Clock) returns (k: nat)
    requires FreeNewCycle(s, key) && !s.cqOnly && !NoneAnswerable(s.cqBuf, s.cooldown, now)
    ensures var s' := OnCycle(s, key, now);
            && FirstBest(s.cqBuf, k, s.cooldown, now) && s'.cqBuf == [] && s'.lastCycle == key
            && TakesCandidate(s, s', CqAnswer, s.cqBuf[k],
                              StrongFirst(s.station.pro) && Grid4Upper(s.cqBuf[k].grid) != "", now)
  {
    OnCycleCases(s, key, now);
    k := CqFlushEffect(s, now);
  }

  /** In CQ mode the first best caller kept is, with our report, whatever cools down. */
  lemma CycleAnswersCaller(s: Operator, key: CycleTag, now: Clock) returns (k: nat)
    requires FreeNewCycle(s, key) && s.cqOnly && !NoneAnswerable(s.inBuf, map[], now)
    ensures var s' := OnCycle(s, key, now);
            && FirstBest(s.inBuf, k, map[], now) && s'.inBuf == [] && s'.lastCycle == key
            && TakesCandidate(s, s', IncomingCall, s.inBuf[k], true, now)
  {
    OnCycleCases(s, key, now);
    k := CallerFlushEffect(s, now);
  }

  predicate NobodyWaits(s: Operator, now: Clock) {
    if s.cqOnly then NoneAnswerable(s.inBuf, map[], now) else NoneAnswerable(s.cqBuf, s.cooldown, now)
  }

  /** A CQ has been called in the period of this slot, on our tone. */
  predicate CalledCq(s: Operator, s': Operator, now: Clock) {
    && s'.phase == CallingCq && s'.lastTx == Some(CqMessage(s.station.me, s.station.grid4)) && s.epoch < s'.epoch
    && s'.queue == [TxItem(s'.lastTx.value, Snap(s.defaultHz), PeriodAt(now.wall), s'.epoch)]
    && s'.cqWait == s.station.cqRepeat && s'.cqPeriod == Some(PeriodAt(now.wall))
  }

  /** With nobody to answer, a CQ is called when the wait is over in our CQ period,
      which is this one if none is chosen yet; otherwise the wait goes on. */
  lemma CycleCallsCq(s: Operator, key: CycleTag, now: Clock)
    requires FreeNewCycle(s, key) && NobodyWaits(s, now)
    ensures var s', here := OnCycle(s, key, now), Some(PeriodAt(now.wall));
            && s'.active.None? && s'.lastCycle == key
            && if s.cqWait <= 0 && (s.cqPeriod.None? || s.cqPeriod == here) then CalledCq(s, s', now)
               else
                 && s'.queue == s.queue && s'.lastTx == s.lastTx && s'.epoch == s.epoch && s'.phase == s.phase
                 && s'.cqWait == (if s.cqWait > 0 then s.cqWait - 1 else s.cqWait)
                 && s'.cqPeriod == if s.cqPeriod.None? then here else s.cqPeriod
  {
    OnCycleCases(s, key, now);
    if s.cqOnly { var _ := CallerFlushEffect(s, now); } else { var _ := CqFlushEffect(s, now); }
    var s1 := FlushOnNewCycle(s, key, now).0;
    assert s1 == s.(cqBuf := s1.cqBuf, inBuf := s1.inBuf, cooldown := s1.cooldown, lastCycle := key);
    SnapNearest(s.defaultHz);
    CqTick(WithCqPeriod(s1, PeriodAt(now.wall)), now);
  }

  lemma CqTick(s: Operator, now: Clock)
    requires s.active.None? && s.cqPeriod.Some?
    ensures var s' := TickCq(s, PeriodAt(now.wall), now);
            && s'.active.None? && s'.lastCycle == s.lastCycle
            && if s.cqWait <= 0 && s.cqPeriod == Some(PeriodAt(now.wall)) then
                 && s'.phase == CallingCq && s'.lastTx == Some(CqMessage(s.station.me, s.station.grid4))
                 && s.epoch < s'.epoch && s'.cqWait == s.station.cqRepeat && s'.cqPeriod == s.cqPeriod
                 && s'.queue == [TxItem(s'.lastTx.value, Snap(Snap(s.defaultHz)), PeriodAt(now.wall), s'.epoch)]
               else s' == s.(cqWait := if s.cqWait > 0 then s.cqWait - 1 else s.cqWait)
  {}

  /** So the first new cycle after arming calls CQ, in its own period. */
  lemma ArmingCallsCq(s: Operator, key: CycleTag, now: Clock)
    requires !s.armed && s.active.None? && !key.NoCycle? && NobodyWaits(s, now)
    ensures CalledCq(s, OnCycle(SetArmed(s, true), key, now), now)
  {
    var s1 := SetArmed(s, true);
    assert s1 == s.(armed := true, lastCycle := NoCycle, cqPeriod := None, cqWait := 0);
    CycleCallsCq(s1, key, now);
  }

  // ---------------------------------------------------------------- giving up

  /** Out of retries before closing, the contact is given up: no contact, nothing
      queued. In the balanced and the CQ mode the first best caller kept takes its
      place, with our report. */
  lemma GivingUpTakesCaller(s: Operator, key: CycleTag, now: Clock) returns (k: nat)
    requires OwnTick(s, now) && s.phase != Closing && s.active.value.cycles >= s.station.pro.MaxRetry()
    ensures var s', left, pro := OnCycle(s, key, now), CallersLeft(s, key), s.station.pro;
            if ((pro.enabled && pro.priority == Balanced) || s.cqOnly) && !NoneAnswerable(left, map[], now) then
              FirstBest(left, k, map[], now) && TakesCandidate(s, s', IncomingCall, left[k], true, now)
            else
              && s'.active.None? && s'.phase == Idle && s'.queue == [] && s'.queuedSlot.None? && s'.cqWait == 0
              && s'.hist.begun == s.hist.begun
  {
    OnCycleCases(s, key, now);
    FlushSparesContact(s, key, now);
    var s1 := FlushOnNewCycle(s, key, now).0;
    ActiveCycleCases(s1, now);
    k := AbandoningTakesCaller(Counted(s1), now);
  }

  lemma AbandoningTakesCaller(s: Operator, now: Clock) returns (k: nat)
    requires s.active.Some?
    ensures var s', pro := AbandonStuck(s, now), s.station.pro;
            if ((pro.enabled && pro.priority == Balanced) || s.cqOnly) && !NoneAnswerable(s.inBuf, map[], now) then
              FirstBest(s.inBuf, k, map[], now) && TakesCandidate(s, s', IncomingCall, s.inBuf[k], true, now)
            else
              && s'.active.None? && s'.phase == Idle && s'.queue == [] && s'.queuedSlot.None? && s'.cqWait == 0
              && s'.hist.begun == s.hist.begun
  {
    var s2 := Abandoned(s, now);
    GivenUp(s, now);
    k := CallerFlushEffect(s2, now);
    if !NoneAnswerable(s.inBuf, map[], now) { TakenAfter(s, s2, FlushIncoming(s2, now).0, s.inBuf[k], now); }
  }

  /** The state right after giving up. */
  lemma GivenUp(s: Operator, now: Clock)
    requires s.active.Some?
    ensures var s', pro := Abandoned(s, now), s.station.pro;
            && s'.active.None? && s'.phase == Idle && s'.queue == [] && s'.queuedSlot.None? && s'.cqWait == 0
            && s'.hist.begun == s.hist.begun && s'.inBuf == s.inBuf && s'.station == s.station && s'.intel == s.intel
            && s.epoch < s'.epoch
            && AbandonStuck(s, now) == if (pro.enabled && pro.priority == Balanced) || s.cqOnly
                                       then FlushIncoming(s', now).0 else s'
  {}

  lemma TakenAfter(s: Operator, s2: Operator, s': Operator, c: Candidate, now: Clock)
    requires TakesCandidate(s2, s', IncomingCall, c, true, now)
    requires s2.hist.begun == s.hist.begun && s.epoch <= s2.epoch && s2.station == s.station && s2.intel == s.intel
    ensures TakesCandidate(s, s', IncomingCall, c, true, now)
  {}

  // ----------------------------------------------------------------- by hand

  /** A contact with the call has begun by hand with this message and these reports,
      alone in the queue for the other period than this one. */
  predicate CallsByHand(s: Operator, s': Operator, c: string, hz: real, third: string, sent: string, rcvd: string,
    now: Clock)
  {
    && s'.active.Some? && s'.lastTx.Some? && Opening(s, s', c, GridFor(s.intel, c), third, sent, rcvd)
    && s'.active.value.how == Engaged && s'.active.value.remote == CallKey(c)
    && s'.active.value.txPeriod == 1 - PeriodAt(now.wall)
    && s'.queue == [TxItem(s'.lastTx.value, Snap(hz), 1 - PeriodAt(now.wall), s'.epoch)]
    && s.epoch < s'.epoch && s'.phase == Active && s'.defaultHz == s.defaultHz && s'.intel == s.intel
    && s'.cqWait == 0
  }

  /** Engaging a call sends it our R-report if its report is given, which is noted
      with it, and otherwise our grid; nobody kept before is called later. */
  lemma EngagedSays(s: Operator, call: string, hz: real, rx: string, snr: int, now: Clock)
    ensures var s', told, rst := EngageCall(s, call, hz, rx, snr, now), IsReport(rx), SnrText(snr);
            && CallsByHand(s, s', CallKey(call), hz, if told then "R" + rst else s.station.grid4,
                           if told then rst else "", if told then RstFromReport(rx) else "", now)
            && s'.cqBuf == [] && s'.inBuf == []
  {
    var c, told, rst := CallKey(call), IsReport(rx), SnrText(snr);
    var s0, s' := ClearBuffers(DropActive(s)), EngageCall(s, call, hz, rx, snr, now);
    var third, sent, rcvd := if told then "R" + rst else s.station.grid4, if told then rst else "",
                             if told then RstFromReport(rx) else "";
    EngageOpens(s, call, hz, rx, snr, now);
    OpensByHand(s0, c, sent, rcvd, third, hz, now);
    ByHandFrom(s, s0, s', c, hz, third, sent, rcvd, now);
  }

  lemma ByHandFrom(s: Operator, s0: Operator, s': Operator, c: string, hz: real, third: string, sent: string,
    rcvd: string, now: Clock)
    requires CallsByHand(s0, s', c, hz, third, sent, rcvd, now) && s0 == ClearBuffers(DropActive(s))
    ensures CallsByHand(s, s', c, hz, third, sent, rcvd, now)
  {}

  lemma OpensByHand(s: Operator, c: string, sent: string, rcvd: string, third: string, hz: real, now: Clock)
    ensures var s' := Opened(s, Engaged, c, GridFor(s.intel, c), PeriodAt(now.wall), sent, rcvd, third, hz,
                             s.defaultHz, now);
            CallsByHand(s, s', c, hz, third, sent, rcvd, now) && s'.cqBuf == s.cqBuf && s'.inBuf == s.inBuf
  {
    OtherThanNow(now);
  }

  lemma OtherThanNow(now: Clock)
    ensures OppositePeriod(PeriodAt(now.wall)) == 1 - PeriodAt(now.wall)
  {
    PairOfSlot(now.wall);
  }

  lemma EngageOpens(s: Operator, call: string, hz: real, rx: string, snr: int, now: Clock)
    ensures var c, told := CallKey(call), IsReport(rx);
            EngageCall(s, call, hz, rx, snr, now)
            == Opened(ClearBuffers(DropActive(s)), Engaged, c, GridFor(s.intel, c), PeriodAt(now.wall),
                      if told then SnrText(snr) else "", if told then RstFromReport(rx) else "",
                      if told then "R" + SnrText(snr) else s.station.grid4, hz, s.defaultHz, now)
  {
    FirstSends(ClearBuffers(DropActive(s)), CallKey(call), hz, rx, snr, now);
  }
}

/** A whole contact between two stations running the operator with the
    professional options off: one calls CQ, the other answers, and each hears what
    the other last sent, as its decoder hands it on. */
module OperatorExchange {
  import opened Base
  import opened Protocol
  import opened SlotClock
  import opened OperatorTypes
  import opened OperatorSteps
  import opened ProtocolProofs

  // ----------------------------------------------------------- what is heard

  predicate PlainCall(c: string) { IsToken(c) && IsUpper(c) && CallKey(c) == c && ValidRemoteCall(c) }

  /** A square that is not the text RR73, which is never taken for a grid. */
  predicate PlainGrid(g: string) { IsUpper(g) && Grid4(g) && g != "RR73" }

  predicate PlainStation(st: Station) { PlainCall(st.me) && PlainGrid(st.grid4) }

  /** A fresh decode of `m` at station `st`, through the decoder's rewriting. */
  predicate Decodes(r: Report, now: Clock, m: TxMessage, st: Station) {
    && NormalizeCallOrder(Text(m), st.me, st.grid4) == Some(r.message)
    && (r.cycle.NoCycle? || Fresh(r.cycle, now.wall))
  }

  lemma PlainCallFacts(c: string)
    requires PlainCall(c)
    ensures Upper(c) == c && Strip(c) == c && c != "CQ" && c != "" && !IsCqModifier(c) && c !in CQ_MODIFIERS
  {
    UpperFixed(c);
    StripTrimmed(c);
    CqIsNoRemote();
  }

  lemma PlainGridFacts(g: string)
    requires PlainGrid(g)
    ensures Upper(g) == g && Grid4Upper(g) == g && IsToken(g) && IsGridToken(g) && Prefix4(g) == g
  {
    UpperFixed(g);
    StripTrimmed(g);
    assert StripAngleRight(StripAngleLeft(g)) == g;
    assert '+' !in g && '-' !in g;
    assert g[..4] == g;
  }

  /** Third fields that are passed on with the sender first. */
  predicate Passed(third: string, grid4: string) {
    && IsToken(third) && IsUpper(third)
    && (IsReport(third) || IsRReport(third) || IsGridToken(third) || IsRr73(third) || Is73(third) || IsRrr(third))
    && !(IsGridToken(third) && Grid4Upper(third) == grid4)
  }

  /** A message addressed to us reaches us with the sender first. */
  lemma DirectedArrives(de: string, third: string, st: Station)
    requires PlainStation(st) && PlainCall(de) && de != st.me && Passed(third, st.grid4)
    ensures var out := NormalizeCallOrder(Directed(st.me, de, third), st.me, st.grid4);
            out.Some? && MessageTriplet(out.value) == Fields(Triplet(de, st.me, third))
  {
    PlainCallFacts(st.me);
    PlainCallFacts(de);
    PlainGridFacts(st.grid4);
    ParseDirected(st.me, de, third);
    ParseDirected(de, st.me, third);
  }

  /** A call in our own grid square keeps us first, as an echo of our own would. */
  lemma OwnGridArrives(de: string, st: Station)
    requires PlainStation(st) && PlainCall(de) && de != st.me
    ensures var out := NormalizeCallOrder(Directed(st.me, de, st.grid4), st.me, st.grid4);
            out.Some? && MessageTriplet(out.value) == Fields(Triplet(st.me, de, st.grid4))
  {
    PlainCallFacts(st.me);
    PlainGridFacts(st.grid4);
    ParseDirected(st.me, de, st.grid4);
  }

  lemma ParseCq(de: string, grid: string)
    requires PlainCall(de) && PlainGrid(grid)
    ensures Strip(Directed("CQ", de, grid)) == Directed("CQ", de, grid)
    ensures MessageTriplet(Directed("CQ", de, grid)) == Fields(Triplet("CQ", de, grid))
  {
    PlainCallFacts(de);
    PlainGridFacts(grid);
    PartsOf("CQ", de, grid);
    CqParts(de, grid);
  }

  lemma PartsOf(a: string, b: string, c: string)
    requires IsToken(a) && IsToken(b) && IsToken(c) && IsUpper(a) && IsUpper(b) && IsUpper(c)
    ensures Strip(Directed(a, b, c)) == Directed(a, b, c)
    ensures Split(Upper(Strip(Directed(a, b, c)))) == [a, b, c]
  {
    DirectedTextFixed(a, b, c);
    SplitDirected(a, b, c);
  }

  lemma CqParts(de: string, grid: string)
    requires !IsCqModifier(de) && de !in CQ_MODIFIERS
    ensures Parse(["CQ", de, grid]) == Fields(Triplet("CQ", de, grid))
  {}

  lemma DirectedTextFixed(a: string, b: string, c: string)
    requires IsToken(a) && IsToken(b) && IsToken(c) && IsUpper(a) && IsUpper(b) && IsUpper(c)
    ensures Strip(Directed(a, b, c)) == Directed(a, b, c) && Upper(Directed(a, b, c)) == Directed(a, b, c)
  {
    var m := Directed(a, b, c);
    assert m[0] == a[0] && m[|m| - 1] == c[|c| - 1];
    StripTrimmed(m);
    assert IsUpper(m) by {
      forall i | 0 <= i < |m| ensures UpperChar(m[i]) == m[i] {
        assert m[i] in a || m[i] in b || m[i] in c || m[i] == ' ';
      }
    }
    UpperFixed(m);
  }

  lemma CqArrives(de: string, grid: string, st: Station)
    requires PlainStation(st) && PlainCall(de) && PlainGrid(grid)
    ensures var out := NormalizeCallOrder(Directed("CQ", de, grid), st.me, st.grid4);
            out.Some? && MessageTriplet(out.value) == Fields(Triplet("CQ", de, grid))
  {
    ParseCq(de, grid);
  }

  // ------------------------------------------------------ the stations' states

  predicate Basic(s: Operator) { s.armed && !s.station.pro.enabled && !s.cqOnly && PlainStation(s.station) }

  /** Not in a contact; the last thing sent, if any, was a CQ. */
  predicate Free(s: Operator) {
    && Basic(s) && s.active.None? && (s.phase == Idle || s.phase == CallingCq)
    && (s.lastTx.None? || s.lastTx == Some(CqMessage(s.station.me, s.station.grid4)))
  }

  predicate CallingCqNow(s: Operator) {
    Free(s) && s.phase == CallingCq && s.lastTx == Some(CqMessage(s.station.me, s.station.grid4))
  }

  /** In a contact with `remote` with these reports noted, having last sent `third`. */
  predicate InContact(s: Operator, remote: string, phase: Phase, sent: string, rcvd: string, third: string) {
    && Basic(s) && s.phase == phase && s.active.Some?
    && s.active.value.remote == remote && s.active.value.rstSent == sent && s.active.value.rstRcvd == rcvd
    && s.lastTx == Some(Message(remote, s.station.me, third))
  }

  /** What waiting may change: retries are counted and queued, nothing else is said. */
  predicate Waits(s: Operator, s': Operator) {
    && s'.armed == s.armed && s'.station == s.station && s'.cqOnly == s.cqOnly
    && s'.phase == s.phase && s'.lastTx == s.lastTx && s'.hist == s.hist && s'.intel == s.intel
    && s.active.Some? == s'.active.Some?
    && (s.active.Some? ==> s'.active.value.(cycles := 0) == s.active.value.(cycles := 0))
  }

  /** A cycle call within the retry limit is such waiting. */
  lemma RetriesOnlyWait(s: Operator, key: CycleTag, now: Clock)
    requires s.active.Some? && s.active.value.cycles < s.station.pro.MaxRetry()
    ensures Waits(s, OnCycle(s, key, now))
  {
    var s1 := FlushOnNewCycle(s, key, now).0;
    assert s1 == s.(cqBuf := s1.cqBuf, inBuf := s1.inBuf, lastCycle := key);
    assert OnCycle(s, key, now) == s || OnCycle(s, key, now) == s1 || OnCycle(s, key, now) == ActiveCycle(s1, now);
    CountsOnly(s1, now);
  }

  lemma CountsOnly(s: Operator, now: Clock)
    requires s.active.Some? && s.active.value.cycles < s.station.pro.MaxRetry()
    ensures Waits(s, ActiveCycle(s, now))
  {}

  // -------------------------------------------------------------- single hops

  lemma HeardInContact(s: Operator, r: Report, t: Triplet, now: Clock)
    requires s.armed && s.active.Some? && (s.phase == Active || s.phase == Closing)
    requires r.cycle.NoCycle? || Fresh(r.cycle, now.wall)
    requires MessageTriplet(r.message) == Fields(t) && t.callA == s.active.value.remote && t.callB == s.station.me
    requires t.callA != t.callB && CallKey(t.callA) == t.callA
    requires HandleActive(s, t, r, now).1
    ensures OnDecode(s, r, now) == HandleActive(s, t, r, now).0
  {
    assert AdoptCqHz(s, t, r) == s;
    assert !IgnoresMeFirst(s, t);
  }

  /** A message from the partner that is not an echo goes to the exchange. */
  predicate FromPartner(s: Operator, t: Triplet) {
    && s.active.Some? && t == Triplet(s.active.value.remote, s.station.me, t.third)
    && !IsMyGrid(t.third, s.station) && CallKey(t.callA) == t.callA
    && (IsRr73(t.third) || Is73(t.third) || !IsSelfEcho(s, t))
  }

  lemma Routed(s: Operator, t: Triplet, r: Report, now: Clock)
    requires FromPartner(s, t)
    ensures IsGridToken(t.third) ==> HandleActive(s, t, r, now) == (PartnerGrid(s, t.third, r.snr, now), true)
    ensures !IsGridToken(t.third) && IsReport(t.third) && !IsRReport(t.third) ==>
              HandleActive(s, t, r, now) == (PartnerReport(s, t.third, r.snr, now), true)
    ensures !IsGridToken(t.third) && IsRReport(t.third) ==> HandleActive(s, t, r, now) == (PartnerRoger(s, now), true)
    ensures !IsGridToken(t.third) && !IsReport(t.third) && !IsRrr(t.third) && (IsRr73(t.third) || Is73(t.third)) ==>
              HandleActive(s, t, r, now) == (PartnerBye(s, now), true)
  {}

  /** Our last message is not taken for an echo unless the third fields agree. */
  lemma NoEcho(s: Operator, remote: string, third: string, t: Triplet)
    requires PlainStation(s.station) && PlainCall(remote)
    requires s.lastTx == Some(Message(remote, s.station.me, third)) && IsToken(third) && IsUpper(third)
    requires t.third != third
    ensures !IsSelfEcho(s, t)
  {
    PlainCallFacts(remote);
    ParseDirected(remote, s.station.me, third);
  }

  lemma ThirdFacts(snr: int)
    ensures IsToken(SnrText(snr)) && IsUpper(SnrText(snr)) && IsToken("R" + SnrText(snr)) && IsUpper("R" + SnrText(snr))
    ensures IsToken("RR73") && IsUpper("RR73") && IsToken("73") && IsUpper("73")
    ensures Upper("RR73") == "RR73" && Upper("73") == "73"
  {
    SnrTextUpper(snr);
    UpperFixed("RR73");
    UpperFixed("73");
  }

  /** What becomes of a fresh decode while no contact is in progress. */
  lemma HeardFree(s: Operator, r: Report, t: Triplet, now: Clock)
    requires s.armed && s.active.None? && (r.cycle.NoCycle? || Fresh(r.cycle, now.wall))
             && MessageTriplet(r.message) == Fields(t)
    ensures var s1 := AdoptCqHz(s, t, r);
            OnDecode(s, r, now) == if IgnoresMeFirst(s1, t) then s1 else HandleOther(s1, t, r, now)
    ensures AdoptCqHz(s, t, r) == s.(defaultHz := AdoptCqHz(s, t, r).defaultHz)
  {}

  lemma CqIsNobodysCall(s: Operator, t: Triplet, r: Report, now: Clock)
    requires PlainStation(s.station) && t.IsCq() && t.callB != s.station.me
    ensures !IgnoresMeFirst(s, t) && HandleOther(s, t, r, now) == MaybeAnswerCq(s, t, r, now)
  {
    PlainCallFacts(s.station.me);
    assert DetectIncoming(s, t).None?;
  }

  /** A CQ is answered with our grid. */
  lemma CqIsAnswered(s: Operator, r: Report, now: Clock, de: string, grid: string)
    requires Free(s) && PlainCall(de) && PlainGrid(grid) && de != s.station.me
    requires Decodes(r, now, CqMessage(de, grid), s.station)
    requires r.snr >= s.station.cqMinSnr && !r.worked && !CoolingDown(s.cooldown, de, now.mono)
    ensures var s' := OnDecode(s, r, now);
            InContact(s', de, Active, "", "", s.station.grid4) && s'.hist.log == s.hist.log && s'.station == s.station
  {
    var t := Triplet("CQ", de, grid);
    CqArrives(de, grid, s.station);
    HeardFree(s, r, t, now);
    var s1 := AdoptCqHz(s, t, r);
    CqIsNobodysCall(s1, t, r, now);
    AnswersWithGrid(s1, t, r, now);
  }

  /** A CQ that passes the filters is answered exactly up to an age of 32 whole
      seconds, so from 18 to 32 although it is older than the documented limit;
      an older one changes nothing. */
  lemma CqAnsweredByAge(s: Operator, r: Report, now: Clock, de: string, grid: string)
    requires Free(s) && PlainCall(de) && PlainGrid(grid) && de != s.station.me && r.cycle.Slot?
    requires NormalizeCallOrder(Text(CqMessage(de, grid)), s.station.me, s.station.grid4) == Some(r.message)
    requires r.snr >= s.station.cqMinSnr && !r.worked && !CoolingDown(s.cooldown, de, now.mono)
    ensures var s', age := OnDecode(s, r, now), now.wall.Floor - r.cycle.start;
            && (InContact(s', de, Active, "", "", s.station.grid4) <==> age <= 32)
            && (age > 32 ==> s' == s)
            && (InContact(s', de, Active, "", "", s.station.grid4) && !DocumentedFresh(r.cycle.start, now.wall)
               <==> 18 <= age <= 32)
  {
    FreshnessGap(r.cycle.start, now.wall);
    if Fresh(r.cycle, now.wall) { CqIsAnswered(s, r, now, de, grid); }
  }

  /** At 20 s, for instance, in any two suitable stations. */
  lemma OldCqAnswered(sa: Station, sb: Station, start: nat, mono: real, lib: int) returns (b: Operator, r: Report)
    requires PlainStation(sa) && PlainStation(sb) && !sb.pro.enabled && sa.me != sb.me && sb.cqMinSnr <= 0
    ensures Free(b) && r.cycle == Slot(start) && !DocumentedFresh(start, (start + 20) as real)
    ensures OnDecode(b, r, Clock((start + 20) as real, mono, lib)) != b
  {
    b := JustArmed(sb);
    CqArrives(sa.me, sa.grid4, sb);
    r := Report(Slot(start), NormalizeCallOrder(Text(CqMessage(sa.me, sa.grid4)), sb.me, sb.grid4).value,
                0, 1500.0, false, None, "", None);
    CqAnsweredByAge(b, r, Clock((start + 20) as real, mono, lib), sa.me, sa.grid4);
  }

  lemma AnswersWithGrid(s: Operator, t: Triplet, r: Report, now: Clock)
    requires Free(s) && PlainCall(t.callB) && r.snr >= s.station.cqMinSnr && !r.worked
    requires !CoolingDown(s.cooldown, t.callB, now.mono)
    ensures var s' := MaybeAnswerCq(s, t, r, now);
            InContact(s', t.callB, Active, "", "", s.station.grid4) && s'.hist.log == s.hist.log
              && s'.station == s.station
  {
    var s0 := AskCooldown(s, t.callB, now);
    var (grid, km) := ResolveGridDist(s0, r, t.callB, t.third);
    assert MaybeAnswerCq(s, t, r, now) == AnswerCq(s0, t.callB, grid, r.audioHz, r.snr, r.cycle, now);
    assert !CoolingDown(s0.cooldown, t.callB, now.mono);
  }

  /** A caller who sends a grid is answered with ours exactly when the grids
      differ: a caller in our own square looks like an echo of our CQ. */
  lemma CallIsAnsweredUnlessNeighbour(s: Operator, r: Report, now: Clock, de: string, grid: string)
    requires CallingCqNow(s) && PlainCall(de) && PlainGrid(grid) && de != s.station.me && !r.worked
    requires Decodes(r, now, Message(s.station.me, de, grid), s.station)
    ensures var s' := OnDecode(s, r, now);
            && s'.hist.log == s.hist.log && s'.station == s.station
            && if grid != s.station.grid4 then InContact(s', de, Active, "", "", s.station.grid4)
               else s' == s.(defaultHz := s'.defaultHz)
  {
    if grid == s.station.grid4 {
      NeighbourIsIgnored(s, r, now, de);
    } else {
      var t := Triplet(de, s.station.me, grid);
      PlainGridFacts(grid);
      DirectedArrives(de, grid, s.station);
      HeardFree(s, r, t, now);
      var s1 := AdoptCqHz(s, t, r);
      CallerWithGrid(s1, grid, r, de, now);
      CallerIsProcessed(s1, t, r, now);
    }
  }

  /** In every state and mode, a message naming us first with our own square does
      at most move our tone: it starts, feeds, ends and buffers nothing. */
  lemma OwnSquareIsIgnored(s: Operator, r: Report, t: Triplet, now: Clock)
    requires MessageTriplet(r.message) == Fields(t)
    requires t.callA == s.station.me && ValidRemoteCall(t.callB) && IsMyGrid(t.third, s.station)
    ensures OnDecode(s, r, now) == s.(defaultHz := OnDecode(s, r, now).defaultHz)
  {}

  /** So a caller from our own square is never answered, whatever we are doing. */
  lemma NeighbourIsIgnored(s: Operator, r: Report, now: Clock, de: string)
    requires PlainStation(s.station) && PlainCall(de) && de != s.station.me
    requires NormalizeCallOrder(Text(Message(s.station.me, de, s.station.grid4)), s.station.me, s.station.grid4)
             == Some(r.message)
    ensures OnDecode(s, r, now) == s.(defaultHz := OnDecode(s, r, now).defaultHz)
  {
    OwnGridArrives(de, s.station);
    PlainGridFacts(s.station.grid4);
    OwnSquareIsIgnored(s, r, Triplet(s.station.me, de, s.station.grid4), now);
  }

  lemma CallerIsProcessed(s: Operator, t: Triplet, r: Report, now: Clock)
    requires s.active.None? && t.callB == s.station.me && ValidRemoteCall(t.callA) && t.callA != s.station.me
    requires ProcessIncoming(s, t.third, r, t.callA, now).1
    ensures !IgnoresMeFirst(s, t) && HandleOther(s, t, r, now) == ProcessIncoming(s, t.third, r, t.callA, now).0
  {
    assert DetectIncoming(s, t) == Some(t.callA);
    assert PreemptOrBuffer(s, t, r, t.callA, now) == ProcessIncoming(s, t.third, r, t.callA, now);
  }

  lemma CallerWithGrid(s: Operator, grid: string, r: Report, de: string, now: Clock)
    requires Free(s) && PlainCall(de) && PlainGrid(grid) && !r.worked
    ensures var (s', handled) := ProcessIncoming(s, grid, r, de, now);
            handled && InContact(s', de, Active, "", "", s.station.grid4) && s'.hist.log == s.hist.log
              && s'.station == s.station
  {
    PlainGridFacts(grid);
    ClassesDisjoint(grid);
    var (g, km) := ResolveGridDist(s, r, de, grid);
    assert NoteIntel(s, de, g, r.snr, km) == s;
    assert g == grid;
  }

  /** The partner's grid is answered with our report of the partner. */
  lemma GridIsReported(s: Operator, r: Report, now: Clock, de: string, grid: string)
    requires InContact(s, de, Active, "", "", s.station.grid4) && PlainCall(de) && PlainGrid(grid)
    requires de != s.station.me && grid != s.station.grid4
    requires Decodes(r, now, Message(s.station.me, de, grid), s.station)
    ensures var s' := OnDecode(s, r, now);
            InContact(s', de, Active, SnrText(r.snr), "", SnrText(r.snr)) && s'.hist == s.hist
              && s'.station == s.station
  {
    var t := Triplet(de, s.station.me, grid);
    PlainGridFacts(grid);
    PlainGridFacts(s.station.grid4);
    ClassesDisjoint(grid);
    DirectedArrives(de, grid, s.station);
    NoEcho(s, de, s.station.grid4, t);
    Routed(s, t, r, now);
    HeardInContact(s, r, t, now);
  }

  /** The partner's report is noted and answered with ours, marked R. */
  lemma ReportIsRogered(s: Operator, r: Report, now: Clock, de: string, snr: int)
    requires InContact(s, de, Active, "", "", s.station.grid4) && PlainCall(de) && de != s.station.me
    requires Decodes(r, now, Message(s.station.me, de, SnrText(snr)), s.station)
    ensures var s' := OnDecode(s, r, now);
            && InContact(s', de, Active, SnrText(r.snr), RstFromReport(SnrText(snr)), "R" + SnrText(r.snr))
            && s'.hist == s.hist && s'.station == s.station
  {
    var third := SnrText(snr);
    var t := Triplet(de, s.station.me, third);
    ThirdFacts(snr);
    SentReportClass(snr);
    PlainGridFacts(s.station.grid4);
    DirectedArrives(de, third, s.station);
    ClassesDisjoint(s.station.grid4);
    NoEcho(s, de, s.station.grid4, t);
    Routed(s, t, r, now);
    HeardInContact(s, r, t, now);
  }

  /** The partner's R-report is answered with RR73; its number is not noted. */
  lemma RogerIsClosed(s: Operator, r: Report, now: Clock, de: string, sent: string, third: string, snr: int)
    requires InContact(s, de, Active, sent, "", third) && PlainCall(de) && de != s.station.me
    requires IsToken(third) && IsUpper(third) && !IsRReport(third)
    requires Decodes(r, now, Message(s.station.me, de, "R" + SnrText(snr)), s.station)
    ensures var s' := OnDecode(s, r, now);
            InContact(s', de, Closing, sent, "", "RR73") && s'.hist == s.hist && s'.station == s.station
  {
    var heard := "R" + SnrText(snr);
    var t := Triplet(de, s.station.me, heard);
    ThirdFacts(snr);
    SentReportClass(snr);
    DirectedArrives(de, heard, s.station);
    NoEcho(s, de, third, t);
    Routed(s, t, r, now);
    HeardInContact(s, r, t, now);
  }

  /** The log gained one record: of this call, with these reports. */
  predicate LogsOne(s: Operator, s': Operator, call: string, sent: string, rcvd: string) {
    && |s'.hist.log| == |s.hist.log| + 1 && s'.hist.log[..|s.hist.log|] == s.hist.log
    && var rec := s'.hist.log[|s.hist.log|]; rec.call == call && rec.rstSent == sent && rec.rstRcvd == rcvd
  }

  function OrZero(rst: string): string { if rst == "" then "+00" else rst }

  /** RR73 or 73 from the partner is answered with 73 and the contact is logged. */
  lemma GoodbyeIsLogged(s: Operator, r: Report, now: Clock, de: string, phase: Phase, sent: string, rcvd: string,
    third: string, bye: string)
    requires InContact(s, de, phase, sent, rcvd, third) && (phase == Active || phase == Closing) && PlainCall(de)
             && de != s.station.me
    requires (bye == "RR73" || bye == "73") && Decodes(r, now, Message(s.station.me, de, bye), s.station)
    ensures var s' := OnDecode(s, r, now);
            && s'.active.None? && s'.phase == Idle && s'.station == s.station && Basic(s')
            && s'.lastTx == Some(Message(de, s.station.me, "73"))
            && LogsOne(s, s', de, OrZero(sent), OrZero(rcvd))
  {
    var t := Triplet(de, s.station.me, bye);
    ThirdFacts(0);
    ClassesDisjoint(bye);
    DirectedArrives(de, bye, s.station);
    Routed(s, t, r, now);
    HeardInContact(s, r, t, now);
    ByeEffect(s, now);
  }

  lemma ByeEffect(s: Operator, now: Clock)
    requires s.active.Some?
    ensures var o, s' := s.active.value, PartnerBye(s, now);
            && s'.active.None? && s'.phase == Idle && s'.station == s.station && s'.armed == s.armed
            && s'.cqOnly == s.cqOnly
            && s'.lastTx == Some(Message(o.remote, s.station.me, "73"))
            && LogsOne(s, s', o.remote, OrZero(o.rstSent), OrZero(o.rstRcvd))
  {}

  // -------------------------------------------------------- the whole contact

  /** The receiver decodes the sender's last message, then waits. */
  predicate Hop(rx: Operator, tx: Operator, r: Report, now: Clock, rx': Operator) {
    tx.lastTx.Some? && Decodes(r, now, tx.lastTx.value, rx.station) && Waits(OnDecode(rx, r, now), rx')
  }

  predicate CanStart(a: Operator, b: Operator, r: Report, now: Clock) {
    && CallingCqNow(a) && Free(b) && a.station.me != b.station.me && a.station.grid4 != b.station.grid4
    && r.snr >= b.station.cqMinSnr && !r.worked && !CoolingDown(b.cooldown, a.station.me, now.mono)
  }

  /** What a station hears and when. */
  datatype Reception = Reception(r: Report, now: Clock)

  /** CQ, and the answerer's grid. */
  predicate Opens(a0: Operator, a1: Operator, b0: Operator, b1: Operator, h0: Reception, h1: Reception) {
    CanStart(a0, b0, h0.r, h0.now) && !h1.r.worked && Hop(b0, a0, h0.r, h0.now, b1) && Hop(a0, b1, h1.r, h1.now, a1)
  }

  /** The caller's grid, the answerer's report, the caller's R-report. */
  predicate Reports(a1: Operator, a2: Operator, b1: Operator, b2: Operator, b3: Operator, h2: Reception,
    h3: Reception, h4: Reception) {
    Hop(b1, a1, h2.r, h2.now, b2) && Hop(a1, b2, h3.r, h3.now, a2) && Hop(b2, a2, h4.r, h4.now, b3)
  }

  /** RR73 and 73. */
  predicate Closes(a2: Operator, a3: Operator, b3: Operator, b4: Operator, h5: Reception, h6: Reception) {
    Hop(a2, b3, h5.r, h5.now, a3) && Hop(b3, a3, h6.r, h6.now, b4)
  }

  lemma Opening(a0: Operator, a1: Operator, b0: Operator, b1: Operator, h0: Reception, h1: Reception)
    requires Opens(a0, a1, b0, b1, h0, h1)
    ensures InContact(a1, b0.station.me, Active, "", "", a0.station.grid4) && a1.station == a0.station
             && a1.hist.log == a0.hist.log
    ensures InContact(b1, a0.station.me, Active, "", "", b0.station.grid4) && b1.station == b0.station
             && b1.hist.log == b0.hist.log
  {
    CqIsAnswered(b0, h0.r, h0.now, a0.station.me, a0.station.grid4);
    CallIsAnsweredUnlessNeighbour(a0, h1.r, h1.now, b0.station.me, b0.station.grid4);
  }

  lemma Reporting(
    a1: Operator, a2: Operator, b1: Operator, b2: Operator, b3: Operator, h2: Reception, h3: Reception, h4: Reception)
    requires a1.station.me != b1.station.me && a1.station.grid4 != b1.station.grid4
    requires InContact(a1, b1.station.me, Active, "", "", a1.station.grid4)
    requires InContact(b1, a1.station.me, Active, "", "", b1.station.grid4)
    requires Reports(a1, a2, b1, b2, b3, h2, h3, h4)
    ensures var x, y := h2.r.snr, h3.r.snr;
            && InContact(a2, b1.station.me, Active, SnrText(y), RstFromReport(SnrText(x)), "R" + SnrText(y))
            && InContact(b3, a1.station.me, Closing, SnrText(x), "", "RR73")
    ensures a2.station == a1.station && a2.hist == a1.hist && b3.station == b1.station && b3.hist == b1.hist
  {
    var x, y := h2.r.snr, h3.r.snr;
    GridIsReported(b1, h2.r, h2.now, a1.station.me, a1.station.grid4);
    ReportIsRogered(a1, h3.r, h3.now, b1.station.me, x);
    ThirdFacts(x);
    SentReportClass(x);
    RogerIsClosed(b2, h4.r, h4.now, a1.station.me, SnrText(x), SnrText(x), y);
  }

  lemma Goodbyes(
    a2: Operator, a3: Operator, b3: Operator, b4: Operator, h5: Reception, h6: Reception,
    sent: string, rcvd: string, third: string, bSent: string)
    requires a2.station.me != b3.station.me && Closes(a2, a3, b3, b4, h5, h6)
    requires InContact(a2, b3.station.me, Active, sent, rcvd, third)
             && InContact(b3, a2.station.me, Closing, bSent, "", "RR73")
    ensures a3.active.None? && b4.active.None?
    ensures LogsOne(a2, a3, b3.station.me, OrZero(sent), OrZero(rcvd))
             && LogsOne(b3, b4, a2.station.me, OrZero(bSent), "+00")
  {
    GoodbyeIsLogged(a2, h5.r, h5.now, b3.station.me, Active, sent, rcvd, third, "RR73");
    GoodbyeIsLogged(b3, h6.r, h6.now, a2.station.me, Closing, bSent, "", "RR73", "73");
  }

  /** A whole contact, with any retries in between: the states of the caller
      (a0 to a3) and of the answerer (b0 to b4) and the seven receptions. Both end
      without a contact and with one new record of the other. The caller's record
      has both reports; the answerer's has the report it sent, and "+00" for the
      one it received, because the number in an R-report is never noted. */
  lemma ExchangeCompletes(
    a0: Operator, a1: Operator, a2: Operator, a3: Operator, b0: Operator, b1: Operator, b2: Operator, b3: Operator,
    b4: Operator,
    h0: Reception, h1: Reception, h2: Reception, h3: Reception, h4: Reception, h5: Reception, h6: Reception)
    requires Opens(a0, a1, b0, b1, h0, h1) && Reports(a1, a2, b1, b2, b3, h2, h3, h4) && Closes(a2, a3, b3, b4, h5, h6)
    ensures a3.active.None? && b4.active.None?
    ensures LogsOne(a0, a3, b0.station.me, SnrText(h3.r.snr), RstFromReport(SnrText(h2.r.snr)))
    ensures LogsOne(b0, b4, a0.station.me, SnrText(h2.r.snr), "+00")
  {
    var x, y := h2.r.snr, h3.r.snr;
    Opening(a0, a1, b0, b1, h0, h1);
    Reporting(a1, a2, b1, b2, b3, h2, h3, h4);
    assert OrZero(RstFromReport(SnrText(x))) == RstFromReport(SnrText(x)) by {
      SentReportClass(x);
      RstNonEmpty(SnrText(x));
    }
    Goodbyes(a2, a3, b3, b4, h5, h6, SnrText(y), RstFromReport(SnrText(x)), "R" + SnrText(y), SnrText(x));
  }

  /** A fresh reception of the sender's last message, at some strength. */
  function Receive(rx: Operator, tx: Operator, snr: int, now: Clock): Reception
    requires Arrives(rx, tx)
  {
    Reception(Report(NoCycle, NormalizeCallOrder(Text(tx.lastTx.value), rx.station.me, rx.station.grid4).value,
                     snr, 1500.0, false, None, "", None), now)
  }

  predicate Arrives(rx: Operator, tx: Operator) {
    tx.lastTx.Some? && NormalizeCallOrder(Text(tx.lastTx.value), rx.station.me, rx.station.grid4).Some?
  }

  lemma OwnMessageArrives(rx: Operator, tx: Operator)
    requires tx.lastTx.Some? && tx.lastTx.value.de == tx.station.me && PlainCall(tx.station.me)
    ensures Arrives(rx, tx)
  {
    var me := tx.station.me;
    match tx.lastTx.value
    case CqMessage(_, grid) => DirectedParses("CQ", me, grid);
    case Message(to, _, third) => DirectedParses(to, me, third);
  }

  /** The receiver's state after it. */
  function Received(rx: Operator, h: Reception): Operator { OnDecode(rx, h.r, h.now) }

  lemma ReceptionIsHop(rx: Operator, tx: Operator, snr: int, now: Clock)
    requires Arrives(rx, tx)
    ensures var h := Receive(rx, tx, snr, now);
            Hop(rx, tx, h.r, h.now, Received(rx, h)) && !h.r.worked && h.r.snr == snr
  {}

  /** Strength and time of a reception. */
  datatype Signal = Signal(snr: int, now: Clock)

  predicate At(h: Reception, g: Signal) { h.r.snr == g.snr && h.now == g.now }

  /** From any two stations that can start, whatever the strengths heard and
      whenever it is, the seven messages do go through and both log the contact. */
  lemma ExchangeHappens(
    a0: Operator, b0: Operator, h0: Reception, g1: Signal, g2: Signal, g3: Signal, g4: Signal, g5: Signal, g6: Signal)
    returns (a1: Operator, a2: Operator, a3: Operator, b1: Operator, b2: Operator, b3: Operator, b4: Operator,
             h1: Reception, h2: Reception, h3: Reception, h4: Reception, h5: Reception, h6: Reception)
    requires CanStart(a0, b0, h0.r, h0.now) && Decodes(h0.r, h0.now, a0.lastTx.value, b0.station)
    ensures At(h1, g1) && At(h2, g2) && At(h3, g3) && At(h4, g4) && At(h5, g5) && At(h6, g6)
    ensures Opens(a0, a1, b0, b1, h0, h1) && Reports(a1, a2, b1, b2, b3, h2, h3, h4) && Closes(a2, a3, b3, b4, h5, h6)
    ensures LogsOne(a0, a3, b0.station.me, SnrText(g3.snr), RstFromReport(SnrText(g2.snr)))
    ensures LogsOne(b0, b4, a0.station.me, SnrText(g2.snr), "+00")
  {
    var x, y := g2.snr, g3.snr;
    a1, b1, h1 := OpeningHappens(a0, b0, h0, g1);
    a2, b2, b3, h2, h3, h4 := ReportsHappen(a1, b1, g2, g3, g4);
    a3, b4, h5, h6 := GoodbyesHappen(a2, b3, SnrText(y), RstFromReport(SnrText(x)), "R" + SnrText(y), SnrText(x),
      g5, g6);
    ExchangeCompletes(a0, a1, a2, a3, b0, b1, b2, b3, b4, h0, h1, h2, h3, h4, h5, h6);
  }

  /** Any two stations in basic mode with different calls and grid squares can
      start: one calls CQ after arming, the other is just armed. */
  lemma StationsCanStart(sa: Station, sb: Station, g: Signal) returns (a0: Operator, b0: Operator, h0: Reception)
    requires PlainStation(sa) && PlainStation(sb) && !sa.pro.enabled && !sb.pro.enabled
    requires sa.me != sb.me && sa.grid4 != sb.grid4 && g.snr >= sb.cqMinSnr
    ensures a0.station == sa && b0.station == sb && At(h0, g)
    ensures CanStart(a0, b0, h0.r, h0.now) && Decodes(h0.r, h0.now, a0.lastTx.value, b0.station)
  {
    a0 := CallsFirst(sa, g.now);
    b0 := JustArmed(sb);
    OwnMessageArrives(b0, a0);
    h0 := Receive(b0, a0, g.snr, g.now);
  }

  lemma CallsFirst(st: Station, now: Clock) returns (s: Operator)
    requires PlainStation(st) && !st.pro.enabled
    ensures CallingCqNow(s) && s.station == st
  {
    s := QueueCq(SetArmed(InitialOperator(st), true), now);
  }

  lemma JustArmed(st: Station) returns (s: Operator)
    requires PlainStation(st) && !st.pro.enabled
    ensures Free(s) && s.station == st && s.cooldown == map[]
  {
    s := SetArmed(InitialOperator(st), true);
  }

  /** A letter, a digit and three letters, upper case, as in K1ABC. */
  predicate ShortCall(c: string) {
    |c| == 5 && IsLetter(c[0]) && IsDigit(c[1]) && IsLetter(c[2]) && IsLetter(c[3]) && IsLetter(c[4]) && IsUpper(c)
  }

  lemma NotReserved(c: string)
    requires |c| == 5 && IsDigit(c[1])
    ensures c !in SKIP_TOKENS && c !in CQ_MODIFIERS
  {}

  lemma NotReportLike(c: string)
    requires ShortCall(c)
    ensures !ReportLike(c)
  {
    assert WithoutSign(c) == c;
  }

  lemma KeyIsItself(c: string)
    requires ShortCall(c)
    ensures CallKey(c) == c && IsToken(c)
  {
    UpperFixed(c);
    StripTrimmed(c);
  }

  /** Every call of that form is a plain call. */
  lemma CallIsPlain(c: string)
    requires ShortCall(c)
    ensures PlainCall(c)
  {
    KeyIsItself(c);
    assert IsCallsignKey(c) by {
      NotReserved(c);
      NotReportLike(c);
      NoSlash(c);
      assert IsLetter(c[0]) && IsDigit(c[0 + 1]);
      assert LetterDigitAdjacent(c);
    }
  }

  lemma {:induction false} NoSlash(c: string)
    requires forall i :: 0 <= i < |c| ==> c[i] != '/'
    ensures WithoutSlash(c) == c
  {
    if c != [] { NoSlash(c[1..]); }
  }

  lemma OpeningHappens(a0: Operator, b0: Operator, h0: Reception, g: Signal)
    returns (a1: Operator, b1: Operator, h1: Reception)
    requires CanStart(a0, b0, h0.r, h0.now) && Decodes(h0.r, h0.now, a0.lastTx.value, b0.station)
    ensures Opens(a0, a1, b0, b1, h0, h1) && At(h1, g)
    ensures InContact(a1, b0.station.me, Active, "", "", a0.station.grid4) && a1.station == a0.station
    ensures InContact(b1, a0.station.me, Active, "", "", b0.station.grid4) && b1.station == b0.station
  {
    b1 := Received(b0, h0);
    CqIsAnswered(b0, h0.r, h0.now, a0.station.me, a0.station.grid4);
    OwnMessageArrives(a0, b1);
    h1 := Receive(a0, b1, g.snr, g.now);
    a1 := Received(a0, h1);
    ReceptionIsHop(a0, b1, g.snr, g.now);
    Opening(a0, a1, b0, b1, h0, h1);
  }

  lemma ReportsHappen(a1: Operator, b1: Operator, g2: Signal, g3: Signal, g4: Signal)
    returns (a2: Operator, b2: Operator, b3: Operator, h2: Reception, h3: Reception, h4: Reception)
    requires a1.station.me != b1.station.me && a1.station.grid4 != b1.station.grid4
    requires InContact(a1, b1.station.me, Active, "", "", a1.station.grid4)
    requires InContact(b1, a1.station.me, Active, "", "", b1.station.grid4)
    ensures Reports(a1, a2, b1, b2, b3, h2, h3, h4) && At(h2, g2) && At(h3, g3) && At(h4, g4)
    ensures var x, y := SnrText(g2.snr), SnrText(g3.snr);
            && InContact(a2, b1.station.me, Active, y, RstFromReport(x), "R" + y) && a2.station == a1.station
            && InContact(b3, a1.station.me, Closing, x, "", "RR73") && b3.station == b1.station
  {
    OwnMessageArrives(b1, a1);
    h2 := Receive(b1, a1, g2.snr, g2.now);
    b2 := Received(b1, h2);
    ReceptionIsHop(b1, a1, g2.snr, g2.now);
    GridIsReported(b1, h2.r, h2.now, a1.station.me, a1.station.grid4);
    OwnMessageArrives(a1, b2);
    h3 := Receive(a1, b2, g3.snr, g3.now);
    a2 := Received(a1, h3);
    ReceptionIsHop(a1, b2, g3.snr, g3.now);
    ReportIsRogered(a1, h3.r, h3.now, b1.station.me, g2.snr);
    OwnMessageArrives(b2, a2);
    h4 := Receive(b2, a2, g4.snr, g4.now);
    b3 := Received(b2, h4);
    ReceptionIsHop(b2, a2, g4.snr, g4.now);
    Reporting(a1, a2, b1, b2, b3, h2, h3, h4);
  }

  lemma GoodbyesHappen(
    a2: Operator, b3: Operator, sent: string, rcvd: string, third: string, bSent: string, g5: Signal, g6: Signal)
    returns (a3: Operator, b4: Operator, h5: Reception, h6: Reception)
    requires a2.station.me != b3.station.me
    requires InContact(a2, b3.station.me, Active, sent, rcvd, third)
             && InContact(b3, a2.station.me, Closing, bSent, "", "RR73")
    ensures Closes(a2, a3, b3, b4, h5, h6) && At(h5, g5) && At(h6, g6)
  {
    OwnMessageArrives(a2, b3);
    h5 := Receive(a2, b3, g5.snr, g5.now);
    a3 := Received(a2, h5);
    ReceptionIsHop(a2, b3, g5.snr, g5.now);
    GoodbyeIsLogged(a2, h5.r, h5.now, b3.station.me, Active, sent, rcvd, third, "RR73");
    OwnMessageArrives(b3, a3);
    h6 := Receive(b3, a3, g6.snr, g6.now);
    b4 := Received(b3, h6);
    ReceptionIsHop(b3, a3, g6.snr, g6.now);
  }

  /** The record a station wrote last. */
  function LastRecord(s: Operator): LogRecord
    requires s.hist.log != []
  {
    s.hist.log[|s.hist.log| - 1]
  }

  /** Each station's record says it received what the other's says it sent. */
  predicate RecordsAgree(ra: LogRecord, rb: LogRecord) { ra.rstRcvd == rb.rstSent && rb.rstRcvd == ra.rstSent }

  /** The two records of a whole contact agree exactly when the answerer heard the
      caller at no more than two digits and the caller heard the answerer at 0 dB:
      a longer report is cut, and an R-report's number is never noted. */
  lemma RecordsAgreeExactly(
    a0: Operator, a1: Operator, a2: Operator, a3: Operator, b0: Operator, b1: Operator, b2: Operator, b3: Operator,
    b4: Operator, h0: Reception, h1: Reception, h2: Reception, h3: Reception, h4: Reception, h5: Reception,
      h6: Reception)
    requires Opens(a0, a1, b0, b1, h0, h1) && Reports(a1, a2, b1, b2, b3, h2, h3, h4) && Closes(a2, a3, b3, b4, h5, h6)
    ensures a3.hist.log != [] && b4.hist.log != []
    ensures RecordsAgree(LastRecord(a3), LastRecord(b4)) <==> -99 <= h2.r.snr <= 99 && h3.r.snr == 0
  {
    ExchangeCompletes(a0, a1, a2, a3, b0, b1, b2, b3, b4, h0, h1, h2, h3, h4, h5, h6);
    ReportsAgree(h2.r.snr, h3.r.snr);
  }

  lemma ReportsAgree(x: int, y: int)
    ensures RstFromReport(SnrText(x)) == SnrText(x) <==> -99 <= x <= 99
    ensures SnrText(y) == "+00" <==> y == 0
  {
    ReportRoundTrip(x);
    SnrBody(y);
    if SnrText(y) == "+00" {
      assert SnrText(y)[1..] == SnrText(0)[1..] by { assert SnrText(0) == "+00"; }
      SnrBody(0);
    }
  }
}

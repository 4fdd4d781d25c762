/** The operator as the source has it: an object whose methods update its
    fields. Every method does what its step function says on the whole state; the
    public ones keep the object valid and promise their callers what the proofs
    about the steps show. */
module OperatorObject {
  import opened Base
  import opened Protocol
  import opened SlotClock
  import opened OperatorTypes
  import opened OperatorSteps
  import opened OperatorProofs
  import opened OperatorOrigins
  import opened OperatorEffects
  import opened OperatorChoices

  // -------------------------------------------------- loops over candidates

  method PruneList(buf: seq<Candidate>, wall: real) returns (kept: seq<Candidate>)
    ensures kept == Prune(buf, wall)
  {
    kept := [];
    for i := 0 to |buf|
      invariant kept == Prune(buf[..i], wall)
    {
      var c := buf[i];
      assert buf[..i + 1][..i] == buf[..i];
      if !c.cycle.NoCycle? && Fresh(c.cycle, wall) { kept := kept + [c]; }
    }
    assert buf[..|buf|] == buf;
  }

  method PickBestCq(cs: seq<Candidate>) returns (best: Option<Candidate>)
    ensures best == PickBest(cs)
  {
    best := None;
    for i := 0 to |cs|
      invariant best == PickBest(cs[..i])
    {
      assert cs[..i + 1][..i] == cs[..i];
      if best.None? || cs[i].score > best.value.score { best := Some(cs[i]); }
    }
    assert cs[..|cs|] == cs;
  }

  class Ft8AutoOperator {
    var station: Station
    var armed: bool
    var active: Option<ActiveQso>
    var phase: Phase
    var cqWait: int
    var lastTx: Option<TxMessage>
    var defaultHz: real
    var intel: Intel
    var cooldown: map<string, real>
    var cqBuf: seq<Candidate>
    var inBuf: seq<Candidate>
    var cqOnly: bool
    var lastCycle: CycleTag
    var cqPeriod: Option<int>
    var queue: seq<TxItem>
    var queuedSlot: Option<int>
    var epoch: int
    var hist: History

    ghost function State(): Operator
      reads this
    {
      Operator(station, armed, active, phase, cqWait, lastTx, defaultHz, intel, cooldown, cqBuf, inBuf, cqOnly,
               lastCycle, cqPeriod, queue, queuedSlot, epoch, hist)
    }

    /** Phase and contact agree, what is queued is no newer than the epoch and, if
        current, the latest message to the partner, and the history adds up. */
    ghost predicate Valid()
      reads this
    {
      Inv(State())
    }

    constructor (st: Station)
      ensures State() == InitialOperator(st) && Valid()
    {
      station := st;
      armed := false;
      active, phase, cqWait, lastTx := None, Idle, 0, None;
      defaultHz := Snap(1500.0);
      intel, cooldown := Intel(map[], map[], map[]), map[];
      cqBuf, inBuf, cqOnly := [], [], false;
      lastCycle, cqPeriod := NoCycle, None;
      queue, queuedSlot, epoch := [], None, 0;
      hist := History(0, [], [], 0, 0);
    }

    // ------------------------------------------------- transmission queue

    method DrainTxQueue()
      modifies this`epoch, this`queue
      ensures epoch == old(epoch) + 1 && queue == []
      ensures State() == Drain(old(State()))
    {
      epoch := epoch + 1;
      while queue != []
        invariant epoch == old(epoch) + 1
        decreases |queue|
      {
        queue := queue[1..];
      }
    }

    method MakeRoom(message: TxMessage)
      modifies this`epoch, this`queue, this`lastTx, this`active
      ensures State() == Supersede(old(State()), message)
    {
      DrainTxQueue();
      lastTx := Some(message);
      if active.Some? { active := Some(active.value.(cycles := 0)); }
    }

    method PutTx(message: TxMessage, hz: real, retry: bool, now: Clock)
      modifies this`epoch, this`queue, this`lastTx, this`active, this`queuedSlot
      ensures State() == QueueTx(old(State()), message, hz, retry, now)
    {
      var period := if active.Some? then active.value.txPeriod
                    else if cqPeriod.Some? then cqPeriod.value else PeriodAt(now.wall);
      var slot := TxSlotStart(period, now.wall);
      if queuedSlot == Some(slot) && retry { return; }
      if !retry { MakeRoom(message); }
      queuedSlot := Some(slot);
      queue := queue + [TxItem(message, Snap(hz), period, epoch)];
    }

    // ---------------------------------------------------------- cooldown

    method MarkOutboundFailed(call: string, now: Clock)
      modifies this`cooldown
      ensures State() == MarkFailed(old(State()), call, now)
    {
      var c := CallKey(call);
      if c != "" { cooldown := cooldown[c := now.mono + station.pro.CooldownSec() as real]; }
    }

    method IsOutboundCooldown(call: string, now: Clock) returns (b: bool)
      modifies this`cooldown
      ensures State() == AskCooldown(old(State()), call, now)
      ensures b == CoolingDown(old(cooldown), call, now.mono)
    {
      var c := CallKey(call);
      b := false;
      if c in cooldown {
        if now.mono >= cooldown[c] { cooldown := cooldown - {c}; } else { b := true; }
      }
      assert cooldown == DropExpired(old(cooldown), {c}, now.mono);
    }

    method EligibleCandidates(buf: seq<Candidate>, now: Clock) returns (kept: seq<Candidate>)
      modifies this`cooldown
      ensures kept == Eligible(buf, old(cooldown), now.mono)
      ensures State() == old(State()).(cooldown := DropExpired(old(cooldown), KeysOf(buf), now.mono))
    {
      kept := [];
      NothingDropped(old(cooldown), now.mono);
      for i := 0 to |buf|
        invariant kept == Eligible(buf[..i], old(cooldown), now.mono)
        invariant State() == old(State()).(cooldown := DropExpired(old(cooldown), KeysOf(buf[..i]), now.mono))
      {
        assert buf[..i + 1][..i] == buf[..i];
        DropNext(old(cooldown), buf, i, now.mono);
        var cooling := IsOutboundCooldown(buf[i].call, now);
        if !cooling { kept := kept + [buf[i]]; }
      }
      assert buf[..|buf|] == buf;
    }

    static lemma NothingDropped(cd: map<string, real>, mono: real)
      ensures DropExpired(cd, KeysOf([]), mono) == cd
    {}

    /** Asking about one call after others drops what asking about all would. */
    static lemma DropNext(cd: map<string, real>, buf: seq<Candidate>, i: nat, mono: real)
      requires i < |buf|
      ensures var cd' := DropExpired(cd, KeysOf(buf[..i]), mono);
              && DropExpired(cd', {CallKey(buf[i].call)}, mono) == DropExpired(cd, KeysOf(buf[..i + 1]), mono)
              && (CoolingDown(cd', buf[i].call, mono) <==> CoolingDown(cd, buf[i].call, mono))
    {
      KeysOfNext(buf, i);
    }

    static lemma KeysOfNext(buf: seq<Candidate>, i: nat)
      requires i < |buf|
      ensures KeysOf(buf[..i + 1]) == KeysOf(buf[..i]) + {CallKey(buf[i].call)}
    {
      assert buf[..i + 1] == buf[..i] + [buf[i]];
    }

    /** The calls still cooling down; those that have expired are forgotten. */
    method OutboundCooldownCalls(now: Clock) returns (calls: set<string>)
      requires Valid()
      modifies this`cooldown
      ensures Valid()
      ensures calls == set c | c in old(cooldown) && now.mono < old(cooldown)[c]
      ensures State() == OperatorStep(old(State()), QueryCooldown(now))
    {
      calls := {};
      var todo := cooldown.Keys;
      while todo != {}
        invariant todo <= cooldown.Keys
        invariant calls == set c | c in old(cooldown) && c !in todo && now.mono < old(cooldown)[c]
        invariant cooldown == DropExpired(old(cooldown), old(cooldown).Keys - todo, now.mono)
        decreases todo
      {
        var c :| c in todo;
        if now.mono < cooldown[c] { calls := calls + {c}; } else { cooldown := cooldown - {c}; }
        todo := todo - {c};
      }
      assert old(cooldown).Keys - todo == old(cooldown).Keys;
      EditGood(old(State()), State(), now.mono);
    }

    // ---------------------------------------------------- contact lifecycle

    method StartQso(how: Origin, remote: string, grid: string, hz: real, heard: int, now: Clock)
      modifies this`hist, this`active, this`phase, this`cqWait
      ensures State() == BeginQso(old(State()), how, remote, grid, hz, heard, now)
    {
      var key := CallKey(remote);
      var g := if grid != "" then Grid4Upper(grid) else GridFor(intel, key);
      hist := hist.(begun := hist.begun + 1);
      active := Some(ActiveQso(hist.begun, how, key, g, hz, "", "", now.wall, 0, OppositePeriod(heard)));
      phase := Active;
      cqWait := 0;
    }

    method NoteRst(sent: string, rcvd: string)
      modifies this`active
      ensures State() == SetRst(old(State()), sent, rcvd)
    {
      if active.Some? { active := Some(active.value.(rstSent := sent, rstRcvd := rcvd)); }
    }

    method ReplyToCq(call: string, grid: string, hz: real, snr: int, cycle: CycleTag, now: Clock)
      modifies this
      ensures State() == AnswerCq(old(State()), call, grid, hz, snr, cycle, now)
    {
      var cooling := IsOutboundCooldown(call, now);
      if cooling { return; }
      StartQso(CqAnswer, call, grid, hz, HeardPeriod(cycle, now), now);
      defaultHz := hz;
      if station.pro.Fast() && Grid4Upper(grid) != "" {
        PutTx(Message(call, station.me, SnrText(snr)), hz, false, now);
        NoteRst(SnrText(snr), "");
        return;
      }
      PutTx(Message(call, station.me, station.grid4), hz, false, now);
    }

    method ReplyToCaller(
      call: string, grid: string, hz: real, rxReport: string, snr: int, cycle: CycleTag, skipGrid: bool, now: Clock)
      modifies this
      ensures State() == AnswerIncoming(old(State()), call, grid, hz, rxReport, snr, cycle, skipGrid, now)
    {
      StartQso(IncomingCall, call, grid, hz, HeardPeriod(cycle, now), now);
      defaultHz := hz;
      if rxReport != "" && IsReport(rxReport) && !IsRReport(rxReport) {
        NoteRst(SnrText(snr), RstFromReport(rxReport));
        PutTx(Message(call, station.me, "R" + SnrText(snr)), hz, false, now);
        return;
      }
      if skipGrid {
        PutTx(Message(call, station.me, SnrText(snr)), hz, false, now);
        NoteRst(SnrText(snr), "");
        return;
      }
      PutTx(Message(call, station.me, station.grid4), hz, false, now);
    }

    method Finish(now: Clock)
      requires active.Some?
      modifies this`hist, this`cooldown, this`active, this`phase, this`cqWait
      ensures State() == FinishQso(old(State()), now)
    {
      var o := active.value;
      hist := hist.(log := hist.log + [RecordOf(o, intel, now)]);
      cooldown := cooldown - {CallKey(o.remote)};
      active := None;
      phase := Idle;
      cqWait := station.cqRepeat;
    }

    method FlushIncomingBuffer(now: Clock) returns (flushed: bool)
      modifies this
      ensures (State(), flushed) == FlushIncoming(old(State()), now)
    {
      var buf := PruneList(inBuf, now.wall);
      inBuf := [];
      if buf == [] || active.Some? { return false; }
      var best := PickBestCq(buf);
      if best.None? { return false; }
      var b := best.value;
      ReplyToCaller(b.call, b.grid, b.audioHz, "", b.snr, b.cycle, true, now);
      flushed := true;
    }

    method FlushCqBuffer(now: Clock) returns (flushed: bool)
      modifies this
      ensures (State(), flushed) == FlushCq(old(State()), now)
    {
      var buf := PruneList(cqBuf, now.wall);
      cqBuf := [];
      if buf == [] || active.Some? { return false; }
      var eligible := EligibleCandidates(buf, now);
      var best := PickBestCq(eligible);
      if best.None? { return false; }
      var b := best.value;
      ReplyToCq(b.call, b.grid, b.audioHz, b.snr, b.cycle, now);
      flushed := true;
    }

    /** The part of giving up that precedes a look at the buffered callers. */
    method GiveUp(now: Clock)
      requires active.Some?
      modifies this`hist, this`cooldown, this`epoch, this`queue, this`queuedSlot, this`active, this`phase, this`cqWait
      ensures State() == Abandoned(old(State()), now)
    {
      var o := active.value;
      MarkOutboundFailed(o.remote, now);
      DrainTxQueue();
      assert State() == Drain(MarkFailed(old(State()), o.remote, now));
      hist := hist.(abandons := hist.abandons + [AbandonmentOf(o, station.pro, now)]);
      queuedSlot := None;
      active := None;
      phase := Idle;
      cqWait := 0;
    }

    method AbandonStuckQso(now: Clock)
      requires active.Some?
      modifies this
      ensures State() == AbandonStuck(old(State()), now)
    {
      GiveUp(now);
      if (station.pro.enabled && station.pro.priority == Balanced) || cqOnly {
        var _ := FlushIncomingBuffer(now);
      }
    }

    method ForgetActive()
      modifies this`active, this`phase, this`hist
      ensures State() == DropActive(old(State()))
    {
      if active.Some? { hist := hist.(dropped := hist.dropped + 1); }
      active := None;
      phase := Idle;
    }

    // -------------------------------------------------- the active contact

    method HandleActiveExchange(t: Triplet, r: Report, now: Clock) returns (handled: bool)
      requires active.Some?
      modifies this
      ensures (State(), handled) == HandleActive(old(State()), t, r, now)
    {
      var third := t.third;
      if !(IsRr73(third) || Is73(third)) {
        var echo := IsSelfTxEcho(t);
        if echo { return true; }
      }
      if IsMyGrid(third, station) { return true; }
      if !BetweenUs(t, station.me, active.value.remote) { return false; }
      handled := true;
      if IsGridToken(third) {
        GridFromPartner(third, r.snr, now);
      } else if IsReport(third) && !IsRReport(third) {
        ReportFromPartner(third, r.snr, now);
      } else if IsRReport(third) || IsRrr(third) {
        RogerFromPartner(now);
      } else if IsRr73(third) || Is73(third) {
        ByeFromPartner(now);
      } else {
        handled := false;
      }
    }

    method GridFromPartner(third: string, snr: int, now: Clock)
      requires active.Some?
      modifies this
      ensures State() == PartnerGrid(old(State()), third, snr, now)
    {
      var o := active.value;
      active := Some(o.(grid := Prefix4(third)));
      if o.rstSent != "" { return; }
      PutTx(Message(o.remote, station.me, SnrText(snr)), o.audioHz, false, now);
      NoteRst(SnrText(snr), o.rstRcvd);
    }

    method ReportFromPartner(third: string, snr: int, now: Clock)
      requires active.Some?
      modifies this
      ensures State() == PartnerReport(old(State()), third, snr, now)
    {
      var o := active.value;
      if o.rstRcvd != "" { return; }
      NoteRst(if o.rstSent == "" then SnrText(snr) else o.rstSent, RstFromReport(third));
      PutTx(Message(o.remote, station.me, "R" + SnrText(snr)), o.audioHz, false, now);
    }

    method RogerFromPartner(now: Clock)
      requires active.Some?
      modifies this
      ensures State() == PartnerRoger(old(State()), now)
    {
      if phase == Closing { return; }
      PutTx(Message(active.value.remote, station.me, "RR73"), active.value.audioHz, false, now);
      phase := Closing;
    }

    method ByeFromPartner(now: Clock)
      requires active.Some?
      modifies this
      ensures State() == PartnerBye(old(State()), now)
    {
      var o := active.value;
      DrainTxQueue();
      queuedSlot := None;
      PutTx(Message(o.remote, station.me, "73"), o.audioHz, false, now);
      Finish(now);
    }

    method IsSelfTxEcho(t: Triplet) returns (echo: bool)
      ensures echo == IsSelfEcho(State(), t)
    {
      if lastTx.None? { return false; }
      var last := TripletOf(lastTx.value);
      if !last.Fields? || t.third != last.value.third { return false; }
      var l := last.value;
      echo := (t.callA == l.callA && t.callB == l.callB) || (t.callA == l.callB && t.callB == l.callA);
    }

    // ------------------------------------------------------ incoming calls

    method StuckQso() returns (b: bool)
      ensures b == StuckActive(State())
    {
      b := active.Some? && (active.value.cycles >= 1 || active.value.rstRcvd == "");
    }

    method AcceptsReversedIncoming() returns (b: bool)
      ensures b == AcceptsReversed(State())
    {
      if !armed { return false; }
      if active.Some? {
        if phase != Active || !station.pro.enabled { return false; }
        b := StuckQso();
        return;
      }
      b := phase == CallingCq || (phase == Idle && cqOnly);
    }

    method ReversedCaller(t: Triplet) returns (call: Option<string>)
      ensures call == DirectedToMeReversed(State(), t)
    {
      call := None;
      var accepts := AcceptsReversedIncoming();
      if !accepts { return; }
      if t.callA != station.me || !ValidRemoteCall(t.callB) { return; }
      if IsMyGrid(t.third, station) { return; }
      if IsRr73(t.third) || Is73(t.third) || IsRrr(t.third) { return; }
      var echo := IsSelfTxEcho(t);
      if echo { return; }
      if IsReport(t.third) || IsGridToken(t.third) { call := Some(t.callB); }
    }

    method DetectCaller(t: Triplet) returns (call: Option<string>)
      ensures call == DetectIncoming(State(), t)
    {
      if t.callB == station.me && ValidRemoteCall(t.callA) { return Some(t.callA); }
      call := ReversedCaller(t);
    }

    method IgnoreMeFirstDecode(t: Triplet) returns (b: bool)
      ensures b == IgnoresMeFirst(State(), t)
    {
      if t.callA != station.me || !ValidRemoteCall(t.callB) { return false; }
      var third := t.third;
      if IsMyGrid(third, station) { return true; }
      if active.Some? && t.callB == active.value.remote {
        if IsReport(third) || IsRReport(third) || IsRr73(third) || Is73(third) || IsRrr(third) { return false; }
      }
      var reversed := ReversedCaller(t);
      b := reversed.None?;
    }

    method ShouldPreemptForIncoming(remote: string, snr: int) returns (b: bool)
      ensures b == ShouldPreempt(State(), remote, snr)
    {
      if active.None? { return true; }
      if active.value.remote == remote { return false; }
      if !station.pro.enabled { return false; }
      var stuckNow := StuckQso();
      if !stuckNow { return false; }
      if station.pro.priority == Balanced {
        var stuck := CallKey(active.value.remote);
        var stuckSnr := if stuck in intel.snrs then intel.snrs[stuck] else -999;
        return !((snr as real) < stuckSnr as real - station.pro.preemptMarginDb);
      }
      b := true;
    }

    method ResolveGrid(r: Report, call: string, third: string) returns (grid: string, km: Option<real>)
      ensures (grid, km) == ResolveGridDist(State(), r, call, third)
    {
      grid := if third != "" && IsGridToken(third) then Grid4Upper(third) else GridFor(intel, call);
      km := KmFor(intel, call);
      if grid != "" && km.Some? { return; }
      if grid != "" && r.gridKm.Some? { km := r.gridKm; return; }
      if grid == "" { grid := r.geoGrid; }
      if km.None? { km := r.geoKm; }
    }

    method NoteHeard(call: string, grid: string, snr: int, km: Option<real>)
      modifies this`intel
      ensures State() == NoteIntel(old(State()), call, grid, snr, km)
    {
      if station.pro.enabled { intel := NoteDecode(intel, call, grid, snr, km); }
    }

    method BufferCaller(call: string, r: Report, grid: string, km: Option<real>, now: Clock) returns (buffered: bool)
      modifies this`inBuf
      ensures (State(), buffered) == BufferScored(old(State()), call, r, grid, km, now)
    {
      var c := ScoreCandidate(call, r, grid, km, r.worked, station, false);
      buffered := c.Some?;
      if buffered {
        inBuf := PruneList(inBuf, now.wall);
        inBuf := inBuf + [c.value];
      }
    }

    method AnswerKnownCaller(third: string, r: Report, call: string, grid: string, km: Option<real>, now: Clock)
      returns (handled: bool)
      modifies this
      ensures (State(), handled) == AnswerCaller(old(State()), third, r, call, grid, km, now)
    {
      handled := true;
      if IsReport(third) && !IsRReport(third) {
        ReplyToCaller(call, grid, r.audioHz, third, r.snr, r.cycle, false, now);
        return;
      }
      if !IsGridToken(third) && grid == "" { return false; }
      if cqOnly {
        var _ := BufferCaller(call, r, grid, km, now);
        return;
      }
      var g := if grid != "" then grid else third;
      var fast := station.pro.Fast() && Grid4Upper(g) != "";
      ReplyToCaller(call, g, r.audioHz, "", r.snr, r.cycle, fast, now);
    }

    method ProcessIncomingCall(third: string, r: Report, call: string, now: Clock) returns (handled: bool)
      modifies this
      ensures (State(), handled) == ProcessIncoming(old(State()), third, r, call, now)
    {
      if IsRr73(third) || Is73(third) { return true; }
      if r.worked && !IsReport(third) { return true; }
      var grid, km := ResolveGrid(r, call, third);
      NoteHeard(call, grid, r.snr, km);
      handled := AnswerKnownCaller(third, r, call, grid, km, now);
    }

    method TryIncomingPreemptOrBuffer(t: Triplet, r: Report, incoming: string, now: Clock) returns (handled: bool)
      modifies this
      ensures (State(), handled) == PreemptOrBuffer(old(State()), t, r, incoming, now)
    {
      var preempt := ShouldPreemptForIncoming(incoming, r.snr);
      if preempt {
        if active.Some? && active.value.remote != incoming { ForgetActive(); }
        if active.None? {
          handled := ProcessIncomingCall(t.third, r, incoming, now);
          return;
        }
        return true;
      }
      var stuck := StuckQso();
      if active.Some? && incoming != active.value.remote && station.pro.enabled && stuck {
        if IsRr73(t.third) || Is73(t.third) || IsReport(t.third) { return false; }
        var grid, km := ResolveGrid(r, incoming, t.third);
        handled := BufferCaller(incoming, r, grid, km, now);
        return;
      }
      handled := false;
    }

    method ConsiderCq(t: Triplet, r: Report, now: Clock)
      modifies this
      ensures State() == MaybeAnswerCq(old(State()), t, r, now)
    {
      if cqOnly || active.Some? { return; }
      var call := t.callB;
      if !ValidRemoteCall(call) { return; }
      var minSnr := if station.pro.enabled then station.pro.minSnr else station.cqMinSnr;
      if r.snr < minSnr { return; }
      if station.pro.enabled && r.snr > station.pro.maxSnr { return; }
      if r.worked { return; }
      var cooling := IsOutboundCooldown(call, now);
      if cooling { return; }
      var grid, km := ResolveGrid(r, call, t.third);
      NoteHeard(call, grid, r.snr, km);
      AnswerOrDefer(call, r, grid, km, now);
    }

    method AnswerOrDefer(call: string, r: Report, grid: string, km: Option<real>, now: Clock)
      modifies this
      ensures State() == AnswerOrDeferCq(old(State()), call, r, grid, km, now)
    {
      if station.pro.enabled && station.pro.DefersCqPick() {
        var c := ScoreCandidate(call, r, grid, km, false, station, true);
        if c.Some? {
          cqBuf := PruneList(cqBuf, now.wall);
          cqBuf := cqBuf + [c.value];
        }
        return;
      }
      ReplyToCq(call, grid, r.audioHz, r.snr, r.cycle, now);
    }

    method MaybeAdoptCqHz(t: Triplet, r: Report)
      modifies this`defaultHz
      ensures State() == AdoptCqHz(old(State()), t, r)
    {
      if phase != Idle && phase != CallingCq { return; }
      if t.IsCq() && t.callB == station.me { return; }
      if r.audioHz < 300.0 || r.audioHz > 3000.0 { return; }
      defaultHz := Snap(r.audioHz);
    }

    method HandleUnclaimedDecode(t: Triplet, r: Report, now: Clock)
      modifies this
      ensures State() == HandleUnclaimed(old(State()), t, r, now)
    {
      if t.IsCq() {
        ConsiderCq(t, r, now);
        return;
      }
      if t.callB == station.me && ValidRemoteCall(t.callA) {
        if active.Some? { return; }
        var _ := ProcessIncomingCall(t.third, r, t.callA, now);
      }
    }

    method HandleOtherDecode(t: Triplet, r: Report, now: Clock)
      modifies this
      ensures State() == HandleOther(old(State()), t, r, now)
    {
      var incoming := DetectCaller(t);
      if incoming.Some? {
        var handled := TryIncomingPreemptOrBuffer(t, r, incoming.value, now);
        if handled { return; }
      }
      HandleUnclaimedDecode(t, r, now);
    }

    method HandleTripletDecode(t: Triplet, r: Report, now: Clock)
      modifies this
      ensures State() == HandleTriplet(old(State()), t, r, now)
    {
      if active.Some? {
        var handled := HandleActiveExchange(t, r, now);
        if handled { return; }
      }
      HandleOtherDecode(t, r, now);
    }

    /** A decode. It raises exactly on a fresh single CQ while armed, and has then
        changed nothing; otherwise a contact keeps partner, tone and period, moves
        on only by its exchange, and is closed or logged only if this message
        confirms it. A contact is begun only with the station heard, on its tone and
        in the other period; when not listening nothing changes. */
    method HandleDecode(r: Report, now: Clock) returns (raised: bool)
      requires Valid()
      modifies this
      ensures Valid() && State() == OnDecode(old(State()), r, now)
      ensures raised <==>
                && old(armed) && (r.cycle.NoCycle? || Fresh(r.cycle, now.wall))
                && Upper(Strip(r.message)) == "CQ"
      ensures !MessageTriplet(r.message).Fields? ==> State() == old(State())
      ensures MessageTriplet(r.message).Fields? ==>
                Heard(old(State()), State(), MessageTriplet(r.message).value, now.mono)
      ensures MessageTriplet(r.message).Fields? ==>
                if Listens(old(State()), r, now)
                then DecodeOrigin(old(State()), State(), MessageTriplet(r.message).value, r, now)
                else State() == old(State())
    {
      ghost var s := State();
      raised := ApplyDecode(r, now);
      DecodeRaisesExactly(s, r, now);
      if MessageTriplet(r.message).Fields? {
        OnDecodeHeard(s, r, MessageTriplet(r.message).value, now);
        DecodeBegins(s, r, MessageTriplet(r.message).value, now);
      }
    }

    method ApplyDecode(r: Report, now: Clock) returns (raised: bool)
      modifies this
      ensures State() == OnDecode(old(State()), r, now)
      ensures raised == DecodeRaises(old(State()), r, now)
    {
      raised := false;
      if !armed { return; }
      if !r.cycle.NoCycle? && !Fresh(r.cycle, now.wall) { return; }
      var t := MessageTriplet(r.message);
      if !t.Fields? { raised := t.Raises?; return; }
      MaybeAdoptCqHz(t.value, r);
      var ignore := IgnoreMeFirstDecode(t.value);
      if ignore { return; }
      HandleTripletDecode(t.value, r, now);
    }

    // ----------------------------------------------------------- the cycle

    method SendCq(now: Clock)
      modifies this
      ensures State() == QueueCq(old(State()), now)
    {
      if active.Some? { return; }
      phase := CallingCq;
      hist := hist.(cqs := hist.cqs + 1);
      PutTx(CqMessage(station.me, station.grid4), Snap(defaultHz), false, now);
    }

    method TickCqScheduler(slot: int, now: Clock)
      modifies this
      ensures State() == TickCq(old(State()), slot, now)
    {
      if cqWait > 0 {
        cqWait := cqWait - 1;
        return;
      }
      if cqPeriod != Some(slot) { return; }
      SendCq(now);
      cqWait := station.cqRepeat;
    }

    method CycleOfActive(now: Clock)
      requires active.Some?
      modifies this
      ensures State() == ActiveCycle(old(State()), now)
    {
      active := Some(active.value.(cycles := active.value.cycles + 1));
      var a := active.value;
      var limit := station.pro.MaxRetry();
      if phase == Closing {
        if a.cycles > limit {
          Finish(now);
          return;
        }
        if lastTx.Some? {
          var last := TripletOf(lastTx.value);
          if last.Fields? && IsRr73(last.value.third) { PutTx(lastTx.value, a.audioHz, true, now); }
        }
        return;
      }
      if a.cycles > limit {
        AbandonStuckQso(now);
      } else if lastTx.Some? {
        PutTx(lastTx.value, a.audioHz, true, now);
      }
    }

    /** A cycle call. One that finds a contact in its own period spends a retry, which
        sends the last message again unless its slot holds one, or ends it, logged if
        closing and given up with a cooldown otherwise; any other leaves contact, log
        and cooldown promises alone. A contact is begun only with a station kept from
        a recent decode, on its tone and in the other period. */
    method HandleCycle(key: CycleTag, now: Clock)
      requires Valid()
      modifies this
      ensures Valid() && State() == OnCycle(old(State()), key, now)
      ensures CycleMoves(old(State()), State(), now) && FromBuffers(old(State()), State(), now)
      ensures OwnTick(old(State()), now) && WithinRetries(old(State())) ==>
                old(lastTx).Some? && Retried(old(State()), State(), now)
    {
      ghost var s := State();
      ApplyCycle(key, now);
      OnCycleMoves(s, key, now);
      CycleBegins(s, key, now);
      if OwnTick(s, now) && WithinRetries(s) { RetryIsSent(s, key, now); }
    }

    method ApplyCycle(key: CycleTag, now: Clock)
      modifies this
      ensures State() == OnCycle(old(State()), key, now)
    {
      if !armed { return; }
      var hadActive := active.Some?;
      var flushed := false;
      var newCycle := key != lastCycle;
      if newCycle {
        if cqOnly { flushed := FlushIncomingBuffer(now); } else { flushed := FlushCqBuffer(now); }
        lastCycle := key;
      }
      assert (State(), flushed) == FlushOnNewCycle(old(State()), key, now);
      var slot := PeriodAt(now.wall);
      if active.Some? {
        if slot == active.value.txPeriod {
          if flushed && !hadActive { return; }
          CycleOfActive(now);
        }
        return;
      }
      if newCycle {
        if cqPeriod.None? { cqPeriod := Some(slot); }
        TickCqScheduler(slot, now);
      }
    }

    // ------------------------------------------------------------ commands

    /** No contact is left, nothing is queued, and what was in play is cancelled. */
    ghost predicate Stopped(before: Operator)
      reads this
    {
      && active.None? && phase == Idle && queue == [] && queuedSlot.None? && lastTx.None? && cqBuf == [] && inBuf == []
      && cqWait == 0 && before.epoch < epoch
      && hist.log == before.hist.log && hist.abandons == before.hist.abandons
    }

    method Abort()
      requires Valid()
      modifies this
      ensures Valid() && State() == AbortQso(old(State()))
      ensures Stopped(old(State())) && armed == old(armed)
    {
      ghost var s := State();
      Clear();
      AbortMoves(s, true, 0.0);
    }

    method Clear()
      modifies this
      ensures State() == AbortQso(old(State()))
    {
      ForgetActive();
      cqWait := 0;
      lastTx := None;
      cqBuf, inBuf := [], [];
      DrainTxQueue();
      queuedSlot := None;
    }

    method Halt(keepArmed: bool)
      requires Valid()
      modifies this
      ensures Valid() && State() == HaltTransmission(old(State()), keepArmed)
      ensures Stopped(old(State())) && armed == (keepArmed && old(armed))
    {
      ghost var s := State();
      if !keepArmed { armed := false; }
      Clear();
      AbortMoves(s, keepArmed, 0.0);
    }

    /** Disarming leaves no contact and cancels what was in play; arming again leaves
        contact and queue alone and only restarts the CQ schedule. */
    method Arm(on: bool)
      requires Valid()
      modifies this
      ensures Valid() && State() == SetArmed(old(State()), on) && armed == on
      ensures !on ==> active.None? && queue == [] && old(epoch) < epoch
      ensures on ==> active == old(active) && queue == old(queue) && epoch == old(epoch)
      ensures on && !old(armed) ==> lastCycle == NoCycle && cqPeriod == None && cqWait == 0
      ensures on && old(armed) ==> State() == old(State())
      ensures hist.log == old(hist).log && hist.abandons == old(hist).abandons
    {
      ghost var s := State();
      if !on {
        StopOperating();
      } else if !armed {
        armed := true;
        lastCycle := NoCycle;
        cqPeriod := None;
        cqWait := 0;
      }
      SetArmedMoves(s, on, 0.0);
    }

    method StopOperating()
      modifies this
      ensures State() == Disarm(old(State()))
    {
      ForgetActive();
      DrainTxQueue();
      armed := false;
      cqWait := 0;
      cqBuf, inBuf := [], [];
    }

    method SetCqOnlyMode(on: bool)
      requires Valid()
      modifies this`cqOnly, this`cqBuf, this`inBuf
      ensures Valid() && State() == SetCqOnly(old(State()), on)
      ensures cqOnly == on && cqBuf == [] && inBuf == []
    {
      ghost var s := State();
      cqOnly := on;
      cqBuf, inBuf := [], [];
      EditGood(s, ClearBuffers(s), 0.0);
      SameQueue(ClearBuffers(s), State());
    }

    /** The waits stay odd, as the CQ cadence needs. */
    method SetCqWaitPeriods(periods: int)
      requires Valid()
      modifies this`station
      ensures Valid() && station == old(station).(cqRepeat := NormalizeCqWait(periods)) && station.cqRepeat % 2 == 1
    {
      ghost var s := State();
      station := station.(cqRepeat := NormalizeCqWait(periods));
      NormalizeCqWaitNearest(periods, CQ_WAIT_CHOICES[0]);
      SameQueue(s, State());
    }

    method SetProConfig(config: ProConfig)
      requires Valid()
      modifies this`station
      ensures Valid() && station == old(station).(pro := config)
    {
      ghost var s := State();
      station := station.(pro := config);
      SameQueue(s, State());
    }

    static lemma SameQueue(s: Operator, s': Operator)
      requires Inv(s) && s'.station.me == s.station.me
      requires s' == s.(station := s'.station, cqOnly := s'.cqOnly, queuedSlot := s'.queuedSlot)
      ensures Inv(s')
    {
      forall i | 0 <= i < |s'.queue| ensures ItemOk(s', s'.queue[i]) { assert ItemOk(s, s.queue[i]); }
    }

    /** Whatever was in progress gives way, unlogged, to a new contact with the call,
        in the period after this one, and what was in play is cancelled. */
    method Engage(call: string, hz: real, rxReport: string, rxSnr: int, now: Clock)
      requires Valid()
      modifies this
      ensures Valid() && State() == EngageCall(old(State()), call, hz, rxReport, rxSnr, now)
      ensures active.Some? && active.value.id == old(hist).begun + 1 && active.value.audioHz == hz
      ensures var told, rst := IsReport(rxReport), SnrText(rxSnr);
              CallsByHand(old(State()), State(), CallKey(call), hz, if told then "R" + rst else station.grid4,
                          if told then rst else "", if told then RstFromReport(rxReport) else "", now)
      ensures cqBuf == [] && inBuf == [] && hist.log == old(hist).log && cooldown == old(cooldown)
    {
      ghost var s := State();
      StartEngaged(call, hz, rxReport, rxSnr, now);
      EngageMoves(s, call, hz, rxReport, rxSnr, now);
      EngagedSays(s, call, hz, rxReport, rxSnr, now);
    }

    method StartEngaged(call: string, hz: real, rxReport: string, rxSnr: int, now: Clock)
      modifies this
      ensures State() == EngageCall(old(State()), call, hz, rxReport, rxSnr, now)
    {
      var c := CallKey(call);
      ForgetActive();
      cqBuf, inBuf := [], [];
      StartQso(Engaged, c, GridFor(intel, c), hz, PeriodAt(now.wall), now);
      SendFirstMessage(c, hz, rxReport, rxSnr, now);
    }

    method SendFirstMessage(c: string, hz: real, rxReport: string, rxSnr: int, now: Clock)
      modifies this
      ensures State() == SendFirst(old(State()), c, hz, rxReport, rxSnr, now)
    {
      if rxReport != "" && IsReport(rxReport) {
        NoteRst(SnrText(rxSnr), RstFromReport(rxReport));
        PutTx(Message(c, station.me, "R" + SnrText(rxSnr)), hz, false, now);
      } else {
        PutTx(Message(c, station.me, station.grid4), hz, false, now);
      }
    }

    // ------------------------------------------------- the worker's side

    /** The oldest item: no newer than the epoch and, if current, the latest message,
        on the tone and in the period of the contact in progress. */
    method TakeTx() returns (it: Option<TxItem>)
      requires Valid()
      modifies this`queue
      ensures Valid() && (it.Some? ==> ItemOk(State(), it.value))
      ensures old(queue) == if it.Some? then [it.value] + queue else []
      ensures State() == Step(System(old(State()), Waiting), Take).op
    {
      ghost var s := State();
      it := None;
      if queue != [] {
        it := Some(queue[0]);
        queue := queue[1..];
        TakenItem(s);
      }
    }

    static lemma TakenItem(s: Operator)
      requires Inv(s) && s.queue != []
      ensures var s' := s.(queue := s.queue[1..]); Inv(s') && ItemOk(s', s.queue[0])
    {
      var s' := s.(queue := s.queue[1..]);
      assert ItemOk(s, s.queue[0]);
      forall i | 0 <= i < |s'.queue| ensures ItemOk(s', s'.queue[i]) { assert ItemOk(s, s.queue[i + 1]); }
    }

    /** An item that may go on is the latest message. */
    method ShouldAbort(it: TxItem) returns (b: bool)
      requires Valid() && ItemOk(State(), it)
      ensures b == !AbortCheckPasses(System(State(), Slotting(it)))
      ensures !b ==> lastTx == Some(it.msg)
      ensures !b && active.Some? ==> it.hz == Snap(active.value.audioHz) && it.period == active.value.txPeriod
    {
      b := it.epoch != epoch;
    }

    method TxDone(it: TxItem)
      requires Valid()
      modifies this`queuedSlot
      ensures Valid() && State() == Step(System(old(State()), Playing(it)), StopItem).op && queuedSlot.None?
    {
      ghost var s := State();
      queuedSlot := None;
      SameQueue(s, State());
    }
  }
}

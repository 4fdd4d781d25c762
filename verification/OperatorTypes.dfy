/** Data of the automatic operator: configuration, decode reports, candidates,
    the active contact, queued transmissions and the record of what happened. */
module OperatorTypes {
  import opened Base
  import opened Protocol
  import opened SlotClock

  // -------------------------------------------------------- configuration

  datatype Priority = Balanced | Distance | WeakDx | StrongFast

  datatype ProConfig = ProConfig(
    enabled: bool,
    priority: Priority,
    minSnr: int,
    maxSnr: int,
    minDistanceKm: real,
    preferWeakBonus: bool,
    deferCqPick: bool,
    skipWorkedToday: bool,
    maxRetryCycles: Option<int>,
    outboundCooldownSec: Option<int>,
    preemptMarginDb: real)
  {
    predicate Fast() { enabled && priority == StrongFast }

    function MaxRetry(): (m: int)
      ensures m >= 1
    {
      if maxRetryCycles.Some? then Max(1, maxRetryCycles.value)
      else if Fast() then 2 else 3
    }

    function CooldownSec(): (c: int)
      ensures c >= 30
    {
      if outboundCooldownSec.Some? then Max(30, outboundCooldownSec.value)
      else if Fast() then 180 else 600
    }

    predicate DefersCqPick() { if Fast() then false else deferCqPick }
  }

  /** Unless set otherwise, a contact has 3 retries and a call given up rests 600 s, in
      the fast mode 2 and 180 s; a setting counts from 1 retry and 30 s upwards. */
  lemma SettingsMean(pro: ProConfig)
    ensures var fast := pro.enabled && pro.priority == StrongFast;
            && pro.MaxRetry() == (match pro.maxRetryCycles
                                  case None => if fast then 2 else 3
                                  case Some(n) => if n < 1 then 1 else n)
            && pro.CooldownSec() == (match pro.outboundCooldownSec
                                     case None => if fast then 180 else 600
                                     case Some(n) => if n < 30 then 30 else n)
  {}

  const CQ_WAIT_CHOICES: seq<int> := [1, 3, 5, 7, 9]

  function Abs(x: int): int { if x < 0 then -x else x }

  /** Nearest of the allowed waits, the smaller one on a tie. */
  function NormalizeCqWait(n: int): int {
    if n in CQ_WAIT_CHOICES then n
    else if Abs(1 - n) <= Abs(3 - n) then 1
    else if Abs(3 - n) <= Abs(5 - n) then 3
    else if Abs(5 - n) <= Abs(7 - n) then 5
    else if Abs(7 - n) <= Abs(9 - n) then 7 else 9
  }

  /** The normaliser returns an odd allowed wait, no other allowed wait is
      nearer, and an allowed wait is kept. */
  lemma NormalizeCqWaitNearest(n: int, choice: int)
    requires choice in CQ_WAIT_CHOICES
    ensures NormalizeCqWait(n) in CQ_WAIT_CHOICES && NormalizeCqWait(n) % 2 == 1
    ensures Abs(NormalizeCqWait(n) - n) <= Abs(choice - n)
    ensures Abs(NormalizeCqWait(n) - n) == Abs(choice - n) ==> NormalizeCqWait(n) <= choice
    ensures NormalizeCqWait(choice) == choice
  {
    var c := CQ_WAIT_CHOICES;
    assert c[0] == 1 && c[1] == 3 && c[2] == 5 && c[3] == 7 && c[4] == 9;
  }

  datatype Station = Station(me: string, grid4: string, cqMinSnr: int, cqRepeat: int, euHome: bool, pro: ProConfig)

  // --------------------------------------------------------------- inputs

  /** A cycle key: absent, the start second of a slot, or text that is no key. */
  datatype CycleTag = NoCycle | Slot(start: int) | Garbled(text: string)

  /** Wall clock, monotonic clock, and the library's own idea of the period. */
  datatype Clock = Clock(wall: real, mono: real, lib: int)

  /** A decode. `worked` is the log's answer for the caller; `gridKm`, `geoGrid`
      and `geoKm` are what the geographic lookups answer. */
  datatype Report = Report(
    cycle: CycleTag,
    message: string,
    snr: int,
    audioHz: real,
    worked: bool,
    gridKm: Option<real>,
    geoGrid: string,
    geoKm: Option<real>)

  predicate Fresh(cycle: CycleTag, wall: real) {
    cycle.Slot? ==> FreshAge(cycle.start, wall)
  }

  function HeardPeriod(cycle: CycleTag, now: Clock): int {
    match cycle
    case NoCycle => PeriodAt(now.wall)
    case Slot(start) => PeriodAt(start as real)
    case Garbled(_) => now.lib
  }

  // ------------------------------------------------------------ candidates

  datatype Candidate = Candidate(
    call: string, grid: string, audioHz: real, snr: int, distanceKm: Option<real>, score: real, cycle: CycleTag)

  predicate DirectedCqMatch(message: string, euHome: bool) {
    var parts := Split(Upper(Strip(message)));
    if |parts| < 2 || parts[0] != "CQ" then true
    else if parts[1] == "DX" then true
    else if parts[1] == "EU" || parts[1] == "EUROPE" then euHome
    else true
  }

  function KmOr(d: Option<real>, default: real): real {
    if d.None? || d.value == 0.0 then default else d.value
  }

  function ScoreOf(pro: ProConfig, snr: int, dist: Option<real>, grid: string): real {
    match pro.priority
    case Distance => KmOr(dist, 0.0)
    case WeakDx =>
      (if snr < 0 then (-snr) as real else 0.0) * 80.0 + KmOr(dist, 0.0) * 0.8
      + (if dist.Some? && dist.value > 2000.0 then 400.0 else 0.0)
    case StrongFast => snr as real * 15.0
    case Balanced =>
      KmOr(dist, 250.0) * 0.4
      + (if pro.preferWeakBonus && snr < 0 then (-snr) as real * 12.0 else 0.0)
      - (if snr > 0 then snr as real * 6.0 else 0.0)
      + (if grid != "" then 80.0 else 0.0)
  }

  /** What each priority prefers, other things being equal: the farther station,
      the stronger one, or the weaker one; balanced operation the weaker one while
      the bonus for weak signals is on, and otherwise none above 0 dB. */
  lemma ScoreOrder(pro: ProConfig, a: int, b: int, dist: Option<real>, far: Option<real>, grid: string)
    requires a < b && KmOr(dist, 0.0) < KmOr(far, 0.0)
    ensures pro.priority == Distance ==>
              ScoreOf(pro, a, dist, grid) == ScoreOf(pro, b, dist, grid) < ScoreOf(pro, a, far, grid)
    ensures pro.priority == StrongFast ==>
              ScoreOf(pro, a, far, grid) == ScoreOf(pro, a, dist, grid) < ScoreOf(pro, b, dist, grid)
    ensures pro.priority == WeakDx ==>
              && ScoreOf(pro, b, dist, grid) <= ScoreOf(pro, a, dist, grid)
              && (a < 0 ==> ScoreOf(pro, b, dist, grid) < ScoreOf(pro, a, dist, grid))
    ensures pro.priority == WeakDx && dist.Some? && far.Some? && 0.0 < dist.value ==>
              ScoreOf(pro, a, dist, grid) < ScoreOf(pro, a, far, grid)
    ensures pro.priority == Balanced ==>
              ScoreOf(pro, b, dist, grid) <= ScoreOf(pro, a, dist, grid)
              && (pro.preferWeakBonus || b > 0 ==> ScoreOf(pro, b, dist, grid) < ScoreOf(pro, a, dist, grid))
  {}

  function ScoreCandidate(
    call: string, r: Report, grid: string, dist: Option<real>, worked: bool, st: Station, isCq: bool): Option<Candidate>
  {
    var pro := st.pro;
    if r.snr < pro.minSnr || r.snr > pro.maxSnr then None
    else if isCq && !DirectedCqMatch(r.message, st.euHome) then None
    else if worked && pro.skipWorkedToday then None
    else if pro.minDistanceKm > 0.0 && (dist.None? || dist.value < pro.minDistanceKm) then None
    else if isCq && worked then None
    else Some(Candidate(call, if grid != "" then Grid4Upper(grid) else "", r.audioHz, r.snr, dist,
                        ScoreOf(pro, r.snr, dist, grid), r.cycle))
  }

  /** The first candidate of the highest score. */
  function PickBest(cs: seq<Candidate>): (best: Option<Candidate>)
  {
    if cs == [] then None
    else
      var rest := PickBest(cs[..|cs| - 1]);
      var last := cs[|cs| - 1];
      if rest.None? || last.score > rest.value.score then Some(last) else rest
  }

  lemma {:induction false} PickBestIsFirstMaximum(cs: seq<Candidate>)
    ensures PickBest(cs).None? <==> cs == []
    ensures cs != [] ==>
      exists k :: 0 <= k < |cs| && PickBest(cs) == Some(cs[k])
        && (forall i :: 0 <= i < |cs| ==> cs[i].score <= cs[k].score)
        && (forall i :: 0 <= i < k ==> cs[i].score < cs[k].score)
  {
    if cs != [] {
      var front := cs[..|cs| - 1];
      PickBestIsFirstMaximum(front);
      var last := cs[|cs| - 1];
      if front != [] {
        var k :| 0 <= k < |front| && PickBest(front) == Some(front[k])
          && (forall i :: 0 <= i < |front| ==> front[i].score <= front[k].score)
          && (forall i :: 0 <= i < k ==> front[i].score < front[k].score);
        assert front[k] == cs[k];
        if last.score > front[k].score {
          assert PickBest(cs) == Some(cs[|cs| - 1]);
          forall i | 0 <= i < |cs| - 1 ensures cs[i].score < last.score { assert cs[i] == front[i]; }
        } else {
          assert PickBest(cs) == Some(cs[k]);
          forall i | 0 <= i < |cs| - 1 ensures cs[i].score <= cs[k].score { assert cs[i] == front[i]; }
          forall i | 0 <= i < k ensures cs[i].score < cs[k].score { assert cs[i] == front[i]; }
        }
      } else {
        assert PickBest(cs) == Some(cs[0]);
      }
    }
  }

  /** Candidates still recent enough to answer, in order. */
  function Prune(cs: seq<Candidate>, wall: real): seq<Candidate> {
    if cs == [] then []
    else
      var last := cs[|cs| - 1];
      Prune(cs[..|cs| - 1], wall) + (if !last.cycle.NoCycle? && Fresh(last.cycle, wall) then [last] else [])
  }

  predicate CoolingDown(cooldown: map<string, real>, call: string, mono: real) {
    CallKey(call) in cooldown && mono < cooldown[CallKey(call)]
  }

  /** Candidates not cooling down, in order. */
  function Eligible(cs: seq<Candidate>, cooldown: map<string, real>, mono: real): seq<Candidate> {
    if cs == [] then []
    else
      var last := cs[|cs| - 1];
      Eligible(cs[..|cs| - 1], cooldown, mono) + (if CoolingDown(cooldown, last.call, mono) then [] else [last])
  }

  /** Asking about calls forgets those among them that have expired. */
  function DropExpired(cooldown: map<string, real>, keys: set<string>, mono: real): map<string, real> {
    map k | k in cooldown && !(k in keys && mono >= cooldown[k]) :: cooldown[k]
  }

  function KeysOf(cs: seq<Candidate>): set<string> {
    set c | c in cs :: CallKey(c.call)
  }

  // -------------------------------------------------------------- contacts

  datatype Phase = Idle | CallingCq | Active | Closing

  /** How a contact began. */
  datatype Origin = CqAnswer | IncomingCall | Engaged

  datatype ActiveQso = ActiveQso(
    id: nat,
    how: Origin,
    remote: string,
    grid: string,
    audioHz: real,
    rstSent: string,
    rstRcvd: string,
    timeOn: real,
    cycles: nat,
    txPeriod: int)

  // --------------------------------------------------------- transmissions

  /** Frequency on the 6.25 Hz tone grid; halves round to the even step. */
  function RoundHalfEven(x: real): int {
    var f := x.Floor;
    var d := x - f as real;
    if d < 0.5 || (d == 0.5 && f % 2 == 0) then f else f + 1
  }

  function Snap(hz: real): real { RoundHalfEven(hz / 6.25) as real * 6.25 }

  lemma SnapNearest(hz: real)
    ensures Snap(Snap(hz)) == Snap(hz)
    ensures -3.125 <= Snap(hz) - hz <= 3.125
  {
    var n := RoundHalfEven(hz / 6.25);
    assert Snap(hz) / 6.25 == n as real;
    assert (n as real).Floor == n;
  }

  datatype TxMessage =
    | CqMessage(de: string, grid: string)
    | Message(to: string, de: string, third: string)

  function Text(m: TxMessage): string {
    match m
    case CqMessage(de, grid) => Directed("CQ", de, grid)
    case Message(to, de, third) => Directed(to, de, third)
  }

  function TripletOf(m: TxMessage): Parsed { MessageTriplet(Text(m)) }

  datatype TxItem = TxItem(msg: TxMessage, hz: real, period: int, epoch: int)

  // --------------------------------------------------------------- history

  datatype LogRecord = LogRecord(
    id: nat, call: string, grid: string, rstSent: string, rstRcvd: string, timeOn: real, timeOff: real, hz: real)

  datatype Abandonment = Abandonment(id: nat, call: string, until: real)

  /** What has happened so far. Only the log exists in the source; the counts
      observe it and no branch reads them. */
  datatype History = History(
    begun: nat, log: seq<LogRecord>, abandons: seq<Abandonment>, dropped: nat, cqs: nat)

  datatype Intel = Intel(grids: map<string, string>, snrs: map<string, int>, kms: map<string, real>)

  function GridFor(i: Intel, call: string): string {
    if CallKey(call) in i.grids then i.grids[CallKey(call)] else ""
  }

  function KmFor(i: Intel, call: string): Option<real> {
    if CallKey(call) in i.kms then Some(i.kms[CallKey(call)]) else None
  }

  function NoteDecode(i: Intel, call: string, grid: string, snr: int, km: Option<real>): Intel {
    var c := CallKey(call);
    Intel(if grid != "" then i.grids[c := Grid4Upper(grid)] else i.grids,
          i.snrs[c := snr],
          if km.Some? then i.kms[c := km.value] else i.kms)
  }

  datatype Operator = Operator(
    station: Station,
    armed: bool,
    active: Option<ActiveQso>,
    phase: Phase,
    cqWait: int,
    lastTx: Option<TxMessage>,
    defaultHz: real,
    intel: Intel,
    cooldown: map<string, real>,
    cqBuf: seq<Candidate>,
    inBuf: seq<Candidate>,
    cqOnly: bool,
    lastCycle: CycleTag,
    cqPeriod: Option<int>,
    queue: seq<TxItem>,
    queuedSlot: Option<int>,
    epoch: int,
    hist: History)

  function InitialOperator(st: Station): Operator {
    Operator(st, false, None, Idle, 0, None, Snap(1500.0), Intel(map[], map[], map[]), map[], [], [],
             false, NoCycle, None, [], None, 0, History(0, [], [], 0, 0))
  }
}

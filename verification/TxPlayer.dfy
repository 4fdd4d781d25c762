/** Transmitting one message: guard, encoding, slot wait, PTT and audio, on an
    ideal clock. A transmission counts as started when its slot wait is over. */
module TxPlayer {
  import opened Base
  import opened SlotClock

  /** What the surroundings do during one call. The epoch that makes a message
      stale never comes back, so the abort test is true from `abortAt` on. */
  datatype Conditions = Conditions(
    lineInOk: bool,
    simulate: bool,
    encodes: bool,
    abortAt: Option<real>,
    pttOk: bool,
    keying: real,    // seconds the PTT command takes
    audioOk: bool,
    playing: real)   // seconds the blocking play lasts; less than the wave if it is halted
  {
    predicate Sane() { keying >= 0.0 && playing >= 0.0 }

    predicate Aborted(t: real) { abortAt.Some? && abortAt.value <= t }
  }

  datatype Outcome =
    | Sent | Simulated | LineInBlocked | EncodeFailed | Cancelled | PttFailed | AudioFailed | AbortedKeyed

  /** When a transmission started, in which period, and for how long it played. */
  datatype Start = Start(period: int, at: real, played: real)

  /** Enough of the message was played to outlast the start window. */
  predicate Complete(s: Start) { s.played > MAX_TX_START }

  /** The decisions of one call, in order, from the time `opens` the window opens. */
  function Decide(c: Conditions, begun: real, opens: real): Outcome {
    if !c.lineInOk then LineInBlocked
    else if c.simulate then (if c.Aborted(begun) then Cancelled else Simulated)
    else if !c.encodes then EncodeFailed
    else if c.Aborted(opens) then Cancelled
    else if !c.pttOk then PttFailed
    else if c.Aborted(opens + c.keying) then AbortedKeyed
    else if !c.audioOk then AudioFailed
    else Sent
  }

  predicate StaleBy(abortAt: Option<real>, t: real) { abortAt.Some? && abortAt.value <= t }

  /** Every outcome with its exact cause: `ready` once line, encoding and the slot
      wait are passed without an abort. */
  predicate Judged(o: Outcome, c: Conditions, begun: real, opens: real) {
    var ready := c.lineInOk && !c.simulate && c.encodes && !StaleBy(c.abortAt, opens);
    && (o == LineInBlocked <==> !c.lineInOk)
    && (o == Simulated <==> c.lineInOk && c.simulate && !StaleBy(c.abortAt, begun))
    && (o == EncodeFailed <==> c.lineInOk && !c.simulate && !c.encodes)
    && (o == Cancelled <==> c.lineInOk && (if c.simulate then StaleBy(c.abortAt, begun)
                                           else c.encodes && StaleBy(c.abortAt, opens)))
    && (o == PttFailed <==> ready && !c.pttOk)
    && (o == AbortedKeyed <==> ready && c.pttOk && StaleBy(c.abortAt, opens + c.keying))
    && (o == AudioFailed <==> ready && c.pttOk && !StaleBy(c.abortAt, opens + c.keying) && !c.audioOk)
    && (o == Sent <==> ready && c.pttOk && !StaleBy(c.abortAt, opens + c.keying) && c.audioOk)
  }

  predicate OnAir(o: Outcome) { o == Sent || o == AudioFailed || o == AbortedKeyed || o == PttFailed }

  class Player {
    var now: real
    var ptt: bool
    var keyings: nat       // PTT-on commands given
    var starts: seq<Start> // messages played to the end of the blocking call

    constructor (t: real)
      ensures now == t && !ptt && keyings == 0 && starts == []
    {
      now, ptt, keyings, starts := t, false, 0, [];
    }

    /** Returns when the window opens, or within a second of an abort. */
    method WaitForTxSlot(want: int, c: Conditions)
      requires want == 0 || want == 1
      modifies this`now
      ensures old(now) <= now <= old(now) + TrueGap(want, old(now))
      ensures !c.Aborted(now) ==> now == old(now) + TrueGap(want, old(now)) && InWindow(want, now)
      ensures c.Aborted(now) ==>
                now == old(now) || now < c.abortAt.value + 1.0 || now == old(now) + TrueGap(want, old(now))
    {
      ghost var goal := now + TrueGap(want, now);
      TrueGapIsLeast(want, now, 0.0);
      while !c.Aborted(now)
        invariant old(now) <= now <= goal
        invariant TrueGap(want, now) == goal - now
        invariant now == old(now) || (c.Aborted(now) ==> now < c.abortAt.value + 1.0)
        decreases 4.0 * TrueGap(want, now) + (if TrueGap(want, now) > 0.0 then 1.0 else 0.0)
                  + (if TrueGap(want, now) > 15.0 then 1.0 else 0.0)
      {
        DelayMeaning(want, now);
        TrueGapIsLeast(want, now, 0.0);
        var delay := SecondsUntilTxPeriod(want, now);
        if delay <= 0.0 { return; }
        var nap := if delay > 1.0 then 0.25 else delay;
        nap := if nap < delay then nap else delay;
        GapShrinks(want, now, nap);
        ShortDelay(want, now);
        now := now + nap;
      }
    }

    /** Sends one message. PTT is off whenever the call returns, however it ends;
        it is never switched on for a message stale before its window opens; and
        a message goes out exactly at the opening of its own window. */
    method Transmit(period: int, c: Conditions) returns (result: Outcome)
      requires !ptt && c.Sane() && (period == 0 || period == 1)
      modifies this
      ensures !ptt && now >= old(now)
      ensures result == Decide(c, old(now), old(now) + TrueGap(period, old(now)))
      ensures Judged(result, c, old(now), old(now) + TrueGap(period, old(now)))
      ensures keyings == old(keyings) + (if OnAir(result) then 1 else 0)
      ensures keyings > old(keyings) ==>
                && c.lineInOk && !c.simulate && c.encodes
                && !StaleBy(c.abortAt, old(now) + TrueGap(period, old(now)))
      ensures result == Cancelled || result == Simulated || result == LineInBlocked || result == EncodeFailed ==>
                now <= old(now) + TrueGap(period, old(now))
      ensures result == Sent ==>
                && starts == old(starts) + [Start(period, old(now) + TrueGap(period, old(now)), c.playing)]
                && InWindow(period, old(now) + TrueGap(period, old(now)))
                && now == old(now) + TrueGap(period, old(now)) + c.keying + c.playing
      ensures result != Sent ==> starts == old(starts)
    {
      TrueGapIsLeast(period, now, 0.0);
      if !c.lineInOk { return LineInBlocked; }
      if c.simulate {
        if c.Aborted(now) { return Cancelled; }
        return Simulated;
      }
      if !c.encodes { return EncodeFailed; }
      WaitForTxSlot(period, c);
      if c.Aborted(now) { return Cancelled; }
      var at := now;
      keyings := keyings + 1;
      ptt := c.pttOk;
      if !c.pttOk {
        result := PttFailed;
      } else {
        now := now + c.keying;
        if c.Aborted(now) {
          result := AbortedKeyed;
        } else if !c.audioOk {
          result := AudioFailed;
        } else {
          now := now + c.playing;
          starts := starts + [Start(period, at, c.playing)];
          result := Sent;
        }
      }
      ptt := false;
    }

    /** One message after a rest. */
    method Turn(job: (int, Conditions), rest: real) returns (result: Outcome, ghost at: real)
      requires !ptt && Proper(job) && rest >= 0.0
      modifies this
      ensures !ptt && at == old(now) + rest && at <= now && Fair(result, job, at)
      ensures Delivered(result, job, old(starts), starts, old(now), now)
    {
      now := now + rest;
      at := now;
      TrueGapIsLeast(job.0, now, 0.0);
      result := Transmit(job.0, job.1);
    }

    /** The worker: one message after another, resting any time in between. `times`
        says when each was taken up. */
    method Work(jobs: seq<(int, Conditions)>, rests: seq<real>) returns (results: seq<Outcome>, ghost times: seq<real>)
      requires !ptt && starts == [] && |rests| == |jobs|
      requires forall i :: 0 <= i < |jobs| ==> Proper(jobs[i]) && rests[i] >= 0.0
      modifies this
      ensures !ptt && Spaced(starts)
      ensures |results| == |jobs| && Played(starts) == SentJobs(jobs, results)
      ensures AllFair(results, jobs, times) && Rising(times, old(now), now)
    {
      results, times := [], [];
      for i := 0 to |jobs|
        invariant !ptt && |results| == i && Accounted(jobs[..i], results, times, starts, old(now), now)
      {
        ghost var before, t := starts, now;
        var result, at := Turn(jobs[i], rests[i]);
        AccountGrows(jobs, results, times, i, result, before, starts, old(now), t, at, now);
        results := results + [result];
        times := times + [at];
      }
      assert jobs[..|jobs|] == jobs;
      SequentialSpaced(starts, now);
    }
  }

  predicate Proper(job: (int, Conditions)) { (job.0 == 0 || job.0 == 1) && job.1.Sane() }

  /** The outcome of a job taken up at this time is the one its conditions cause. */
  predicate Fair(o: Outcome, job: (int, Conditions), at: real) {
    Proper(job) && Judged(o, job.1, at, at + TrueGap(job.0, at))
  }

  predicate AllFair(results: seq<Outcome>, jobs: seq<(int, Conditions)>, times: seq<real>) {
    |results| == |jobs| == |times| && forall i :: 0 <= i < |jobs| ==> Fair(results[i], jobs[i], times[i])
  }

  lemma FairGrows(
    results: seq<Outcome>, jobs: seq<(int, Conditions)>, times: seq<real>, i: nat, result: Outcome, at: real)
    requires i < |jobs| && AllFair(results, jobs[..i], times) && Fair(result, jobs[i], at)
    ensures AllFair(results + [result], jobs[..i + 1], times + [at])
  {
    forall k | 0 <= k <= i ensures Fair((results + [result])[k], jobs[..i + 1][k], (times + [at])[k]) {
      if k < i { assert Fair(results[k], jobs[..i][k], times[k]); }
    }
  }

  /** The account of the jobs done so far. */
  predicate Accounted(jobs: seq<(int, Conditions)>, results: seq<Outcome>, times: seq<real>, starts: seq<Start>,
    from: real, now: real)
    requires |jobs| == |results|
  {
    Ledger(jobs, results, starts, now) && AllFair(results, jobs, times) && Rising(times, from, now) && from <= now
  }

  lemma AccountGrows(
    jobs: seq<(int, Conditions)>, results: seq<Outcome>, times: seq<real>, i: nat, result: Outcome, before: seq<Start>,
    after: seq<Start>, from: real, t: real, at: real, now: real)
    requires i < |jobs| && |results| == i && Accounted(jobs[..i], results, times, before, from, t)
    requires Delivered(result, jobs[i], before, after, t, now) && Fair(result, jobs[i], at) && t <= at <= now
    ensures Accounted(jobs[..i + 1], results + [result], times + [at], after, from, now)
  {
    LedgerGrows(jobs, results, i, result, before, after, t, now);
    FairGrows(results, jobs, times, i, result, at);
    RisingGrows(times, from, t, at, now);
  }

  lemma RisingGrows(times: seq<real>, from: real, to: real, at: real, later: real)
    requires Rising(times, from, to) && from <= to <= at <= later
    ensures Rising(times + [at], from, later)
  {}

  /** Times in order between two others. */
  predicate Rising(times: seq<real>, from: real, to: real) {
    && (forall i :: 0 <= i < |times| ==> from <= times[i] <= to)
    && (forall i, j :: 0 <= i < j < |times| ==> times[i] <= times[j])
  }

  /** Periods and lengths of what was played, in order. */
  function Played(ss: seq<Start>): seq<(int, real)> {
    if ss == [] then [] else Played(ss[..|ss| - 1]) + [(ss[|ss| - 1].period, ss[|ss| - 1].played)]
  }

  /** Periods and lengths of the jobs that ended as sent, in order. */
  function SentJobs(jobs: seq<(int, Conditions)>, results: seq<Outcome>): seq<(int, real)>
    requires |jobs| == |results|
  {
    if jobs == [] then []
    else
      var n := |jobs| - 1;
      SentJobs(jobs[..n], results[..n]) + if results[n] == Sent then [(jobs[n].0, jobs[n].1.playing)] else []
  }

  lemma SentJobsNext(jobs: seq<(int, Conditions)>, results: seq<Outcome>, i: nat, result: Outcome)
    requires i < |jobs| && |results| == i
    ensures SentJobs(jobs[..i + 1], results + [result])
         == SentJobs(jobs[..i], results) + if result == Sent then [(jobs[i].0, jobs[i].1.playing)] else []
  {
    assert jobs[..i + 1][..i] == jobs[..i] && (results + [result])[..i] == results;
  }

  /** The starts are in sequence, and are those of the jobs that ended as sent. */
  predicate Ledger(jobs: seq<(int, Conditions)>, results: seq<Outcome>, starts: seq<Start>, now: real)
    requires |jobs| == |results|
  {
    Sequential(starts, now) && Played(starts) == SentJobs(jobs, results)
  }

  /** A sent message is one more start, in its window, between the two times. */
  predicate Delivered(
    result: Outcome, job: (int, Conditions), before: seq<Start>, after: seq<Start>, t: real, now: real)
  {
    && t <= now
    && if result != Sent then after == before
       else
         && |after| == |before| + 1 && after[..|before|] == before
         && var s := after[|before|];
         && s.period == job.0 && s.played == job.1.playing
         && InWindow(s.period, s.at) && t <= s.at && s.at + s.played <= now
  }

  lemma LedgerGrows(
    jobs: seq<(int, Conditions)>, results: seq<Outcome>, i: nat, result: Outcome, before: seq<Start>, after: seq<Start>,
    t: real, now: real)
    requires i < |jobs| && |results| == i && Ledger(jobs[..i], results, before, t)
    requires Delivered(result, jobs[i], before, after, t, now)
    ensures Ledger(jobs[..i + 1], results + [result], after, now)
  {
    SentJobsNext(jobs, results, i, result);
    if result == Sent {
      SequentialGrows(before, after, t, now);
      PlayedNext(before, after);
    }
  }

  lemma PlayedNext(before: seq<Start>, after: seq<Start>)
    requires |after| == |before| + 1 && after[..|before|] == before
    ensures Played(after) == Played(before) + [(after[|before|].period, after[|before|].played)]
  {}

  /** Each start lies in a window of its period, and the next one comes no
      earlier than the end of what it played. */
  predicate Sequential(ss: seq<Start>, now: real) {
    && (forall i :: 0 <= i < |ss| ==> InWindow(ss[i].period, ss[i].at) && ss[i].at + ss[i].played <= now)
    && (forall i, j :: 0 <= i < j < |ss| ==> ss[i].at + ss[i].played <= ss[j].at)
  }

  /** After a complete transmission no other starts in its slot, and none of the
      same period within 27.5 s of it. */
  predicate Spaced(ss: seq<Start>) {
    forall i, j :: 0 <= i < j < |ss| && Complete(ss[i]) ==>
      && SlotIndex(ss[i].at) < SlotIndex(ss[j].at)
      && (ss[i].period == ss[j].period ==> ss[j].at - ss[i].at >= 27.5)
  }

  lemma SequentialGrows(before: seq<Start>, after: seq<Start>, t: real, now: real)
    requires Sequential(before, t) && t <= now
    requires |after| == |before| + 1 && after[..|before|] == before
    requires var s := after[|before|];
             InWindow(s.period, s.at) && t <= s.at && s.at + s.played <= now
    ensures Sequential(after, now)
  {
    forall i | 0 <= i < |before| ensures after[i] == before[i] { assert after[..|before|][i] == before[i]; }
  }

  /** Two starts more than a window apart are in different slots; of one period
      they are at least 27.5 s apart. */
  lemma StartsApart(p: int, t: real, q: int, u: real)
    requires InWindow(p, t) && InWindow(q, u) && u > t + MAX_TX_START
    ensures SlotIndex(t) < SlotIndex(u)
    ensures p == q ==> u - t >= 27.5
  {
    PairOfSlot(t);
    PairOfSlot(u);
    var k, n := SlotIndex(t), SlotIndex(u);
    assert u - t == InSlot(u) - InSlot(t) + 15.0 * (n - k) as real;
    assert k < n;
    if p == q { assert n >= k + 2; }
  }

  lemma SequentialSpaced(ss: seq<Start>, now: real)
    requires Sequential(ss, now)
    ensures Spaced(ss)
  {
    forall i, j | 0 <= i < j < |ss| && Complete(ss[i])
      ensures SlotIndex(ss[i].at) < SlotIndex(ss[j].at)
           && (ss[i].period == ss[j].period ==> ss[j].at - ss[i].at >= 27.5)
    {
      StartsApart(ss[i].period, ss[i].at, ss[j].period, ss[j].at);
    }
  }
}

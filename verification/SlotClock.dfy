/** Transmit and receive slots: 15 s slots paired into 30 s, times in seconds
    since the epoch. The loops run against an ideal clock, on which sleeping for
    d seconds advances the time by exactly d. */
module SlotClock {

  const MAX_TX_START: real := 2.5
  const CYCLE: real := 15.0

  /** Index of the 15 s slot that holds t. */
  function SlotIndex(t: real): int { (t / 15.0).Floor }

  function PeriodAt(t: real): int { SlotIndex(t) % 2 }

  function OppositePeriod(period: int): int { 1 - period % 2 }

  function InSlot(t: real): real { t - 15.0 * SlotIndex(t) as real }

  function InPair(t: real): real { t - 30.0 * (t / 30.0).Floor as real }

  function SecondsUntilTxPeriod(want: int, t: real): real {
    if PeriodAt(t) == want && InSlot(t) <= MAX_TX_START then 0.0
    else if PeriodAt(t) == want then 30.0 - InPair(t)
    else CYCLE - InSlot(t)
  }

  // ------------------------------------------------------- the native twin

  /** C `fmod` for a positive divisor: the remainder of division truncated toward zero. */
  function Fmod(x: real, y: real): real
    requires y > 0.0
  {
    var q := x / y;
    var n := if q >= 0.0 then q.Floor else -((-q).Floor);
    x - y * n as real
  }

  function NativePeriod(t: real): int {
    var m := Fmod(t, 30.0);
    var m' := if m < 0.0 then m + 30.0 else m;
    (m' / 15.0).Floor
  }

  function NativeSecondsUntilTxPeriod(want: int, now: real): real {
    var p := NativePeriod(now);
    var r := Fmod(now, CYCLE);
    var inSlot := if r < 0.0 then r + CYCLE else r;
    if p == want && inSlot <= MAX_TX_START then 0.0
    else if p == want then 30.0 - Fmod(now, 30.0)
    else CYCLE - inSlot
  }

  lemma NativePeriodAgrees(t: real)
    ensures NativePeriod(t) == PeriodAt(t)
  {
    var a := t / 30.0;
    var k := (t / 15.0).Floor;
    if a >= 0.0 {
      var n := a.Floor;
      assert k == 2 * n || k == 2 * n + 1;
    } else {
      var n := (-a).Floor;
      assert Fmod(t, 30.0) == t + 30.0 * n as real;
      assert -30.0 < Fmod(t, 30.0) <= 0.0;
      if Fmod(t, 30.0) < 0.0 {
        assert k == -2 * n - 2 || k == -2 * n - 1;
      } else {
        assert k == -2 * n;
      }
    }
  }

  lemma FmodWrapped(t: real, y: real)
    requires y == 15.0 || y == 30.0
    ensures var r := Fmod(t, y);
            (if r < 0.0 then r + y else r) == t - y * (t / y).Floor as real
    ensures t >= 0.0 ==> Fmod(t, y) == t - y * (t / y).Floor as real
  {
    var q := t / y;
    if q < 0.0 {
      var n := (-q).Floor;
      assert Fmod(t, y) == t + y * n as real;
      assert n as real <= -q < n as real + 1.0;
      if y == 15.0 {
        if Fmod(t, y) < 0.0 { assert q.Floor == -n - 1; } else { assert q.Floor == -n; }
      } else {
        if Fmod(t, y) < 0.0 { assert q.Floor == -n - 1; } else { assert q.Floor == -n; }
      }
    }
  }

  /** The native timer computes the same delay as the Python one, except for a
      negative time late in a wanted slot, where its remainder is not wrapped. */
  lemma NativeAgrees(want: int, t: real)
    ensures NativeSecondsUntilTxPeriod(want, t) == SecondsUntilTxPeriod(want, t)
       <==> t >= 0.0 || PeriodAt(t) != want || InSlot(t) <= MAX_TX_START
  {
    NativePeriodAgrees(t);
    FmodWrapped(t, 15.0);
    FmodWrapped(t, 30.0);
    if t < 0.0 && PeriodAt(t) == want && InSlot(t) > MAX_TX_START {
      PairOfSlot(t);
      assert Fmod(t, 30.0) < 0.0;
    }
  }

  /** Position in the 30 s pair, from the slot and its parity. */
  lemma PairOfSlot(t: real)
    ensures PeriodAt(t) == 0 || PeriodAt(t) == 1
    ensures 0.0 <= InSlot(t) < 15.0
    ensures InPair(t) == InSlot(t) + 15.0 * PeriodAt(t) as real
  {
    var k := (t / 15.0).Floor;
    var n := (t / 30.0).Floor;
    assert k == 2 * n || k == 2 * n + 1;
  }

  // ------------------------------------------------- what the delay means

  /** t lies in the part of a wanted slot where a transmission may start. */
  predicate InWindow(want: int, t: real) {
    PeriodAt(t) == want && InSlot(t) <= MAX_TX_START
  }

  /** Seconds until the start window of a wanted slot is next open. */
  function TrueGap(want: int, t: real): real
    requires want == 0 || want == 1
  {
    if InWindow(want, t) then 0.0
    else if PeriodAt(t) == want then 30.0 - InSlot(t)
    else 15.0 - InSlot(t)
  }

  lemma SlotIndexUnique(t: real, k: int)
    requires 15.0 * k as real <= t < 15.0 * (k + 1) as real
    ensures SlotIndex(t) == k
  {
    assert (k as real) <= t / 15.0 < (k + 1) as real;
  }

  lemma SlotAfter(t: real, d: real)
    requires d >= 0.0
    ensures InSlot(t) + d < 15.0 ==> SlotIndex(t + d) == SlotIndex(t)
    ensures 15.0 <= InSlot(t) + d < 30.0 ==> SlotIndex(t + d) == SlotIndex(t) + 1
    ensures 30.0 <= InSlot(t) + d < 45.0 ==> SlotIndex(t + d) == SlotIndex(t) + 2
  {
    var k := SlotIndex(t);
    PairOfSlot(t);
    if InSlot(t) + d < 15.0 { SlotIndexUnique(t + d, k); }
    else if InSlot(t) + d < 30.0 { SlotIndexUnique(t + d, k + 1); }
    else if InSlot(t) + d < 45.0 { SlotIndexUnique(t + d, k + 2); }
  }

  /** The gap is the least wait after which the window is open. */
  lemma TrueGapIsLeast(want: int, t: real, d: real)
    requires want == 0 || want == 1
    requires 0.0 <= d
    ensures 0.0 <= TrueGap(want, t) <= 27.5
    ensures InWindow(want, t + TrueGap(want, t))
    ensures d < TrueGap(want, t) ==> !InWindow(want, t + d)
  {
    var g := TrueGap(want, t);
    PairOfSlot(t);
    SlotAfter(t, g);
    if d < g {
      SlotAfter(t, d);
    }
  }

  /** The delay is zero exactly inside the window; elsewhere it is the true gap,
      or falls 15 s short of it. The short case is exactly a wait for period 1
      late in a period 1 slot. */
  lemma DelayMeaning(want: int, t: real)
    requires want == 0 || want == 1
    ensures var d := SecondsUntilTxPeriod(want, t);
            && (d == 0.0 <==> InWindow(want, t))
            && 0.0 <= d <= TrueGap(want, t)
            && (d == TrueGap(want, t) || d == TrueGap(want, t) - 15.0)
            && (d == TrueGap(want, t) - 15.0
                <==> want == 1 && PeriodAt(t) == 1 && InSlot(t) > MAX_TX_START)
  {
    PairOfSlot(t);
  }

  /** Waiting part of the gap leaves the rest of it. */
  lemma GapShrinks(want: int, t: real, d: real)
    requires want == 0 || want == 1
    requires 0.0 <= d <= TrueGap(want, t)
    ensures TrueGap(want, t + d) == TrueGap(want, t) - d
  {
    PairOfSlot(t);
    PairOfSlot(t + d);
    SlotAfter(t, d);
  }

  // ------------------------------------------------------- waiting loops

  /** The transmit player's loop: it returns at the first instant the window is open. */
  method WaitForTxSlot(want: int, start: real) returns (now: real)
    requires want == 0 || want == 1
    ensures now == start + TrueGap(want, start)
    ensures InWindow(want, now)
  {
    now := start;
    while true
      invariant start <= now <= start + TrueGap(want, start)
      invariant TrueGap(want, now) == start + TrueGap(want, start) - now
      decreases 4.0 * TrueGap(want, now) + (if TrueGap(want, now) > 0.0 then 1.0 else 0.0)
                + (if TrueGap(want, now) > 15.0 then 1.0 else 0.0)
    {
      TrueGapIsLeast(want, now, 0.0);
      DelayMeaning(want, now);
      var delay := SecondsUntilTxPeriod(want, now);
      if delay <= 0.0 { return; }
      var nap := if delay > 1.0 then 0.25 else delay;
      nap := if nap < delay then nap else delay;
      GapShrinks(want, now, nap);
      ShortDelay(want, now);
      now := now + nap;
    }
  }

  /** Where the delay is short of the gap the remaining gap is more than 15 s. */
  lemma ShortDelay(want: int, t: real)
    requires want == 0 || want == 1
    ensures SecondsUntilTxPeriod(want, t) < TrueGap(want, t) ==> TrueGap(want, t) > 15.0
  {
    PairOfSlot(t);
  }

  /** The adaptive loop with its 1 s, 10 ms and 1 ms naps enters the window at
      most a millisecond late. */
  method WaitForTxPeriod(want: int, start: real) returns (now: real)
    requires want == 0 || want == 1
    ensures start + TrueGap(want, start) <= now <= start + TrueGap(want, start) + 0.001
    ensures InWindow(want, now)
  {
    now := start;
    ghost var goal := start + TrueGap(want, start);
    TrueGapIsLeast(want, start, 0.0);
    while true
      invariant start <= now
      invariant now <= goal ==> TrueGap(want, now) == goal - now
      invariant goal < now ==> InWindow(want, now)
      invariant now <= goal + 0.001
      decreases 1000.0 * (goal - now) + 2.0
    {
      DelayMeaning(want, now);
      var delay := SecondsUntilTxPeriod(want, now);
      if delay <= 0.0 { return; }
      var nap := if delay > 1.0 then (if delay - 0.05 < 1.0 then delay - 0.05 else 1.0)
                 else if delay > 0.05 then 0.01 else 0.001;
      if now + nap <= goal {
        GapShrinks(want, now, nap);
      } else {
        GapShrinks(want, now, goal - now);
        TrueGapIsLeast(want, now, 0.0);
        JustOpened(want, now, nap);
      }
      now := now + nap;
    }
  }

  /** Overshooting a closed window's opening by at most 2.5 s still lands in it. */
  lemma JustOpened(want: int, t: real, d: real)
    requires want == 0 || want == 1
    requires !InWindow(want, t)
    requires TrueGap(want, t) <= d <= TrueGap(want, t) + MAX_TX_START
    ensures InWindow(want, t + d)
  {
    PairOfSlot(t);
    SlotAfter(t, d);
  }

  // ---------------------------------------------------- slots and freshness

  /** Start of the 15 s slot that holds t, for t >= 0 (`cycle_key_at` names it). */
  function CycleStart(t: real): int { 15 * SlotIndex(t) }

  /** The slot the next transmission in `period` is filed under. */
  function TxSlotStart(period: int, t: real): int {
    CycleStart(t + SecondsUntilTxPeriod(period, t) + 0.05)
  }

  /** The filed slot is one of the wanted period unless the delay was short:
      exactly the wait for period 1 late in its own slot is filed under period 0. */
  lemma TxSlotPeriod(period: int, t: real)
    requires period == 0 || period == 1
    ensures (TxSlotStart(period, t) / 15) % 2 == period
       <==> !(period == 1 && PeriodAt(t) == 1 && InSlot(t) > MAX_TX_START)
  {
    var d := SecondsUntilTxPeriod(period, t);
    PairOfSlot(t);
    SlotAfter(t, d + 0.05);
    assert t + (d + 0.05) == t + d + 0.05;
    assert TxSlotStart(period, t) / 15 == SlotIndex(t + d + 0.05);
  }

  /** That slot is the one in which the window opens, unless the delay was short. */
  lemma TxSlotIsNext(period: int, t: real)
    requires period == 0 || period == 1
    requires !(period == 1 && PeriodAt(t) == 1 && InSlot(t) > MAX_TX_START)
    ensures var opens := t + TrueGap(period, t);
            TxSlotStart(period, t) as real <= opens < (TxSlotStart(period, t) + 15) as real
  {
    var d := TrueGap(period, t);
    DelayMeaning(period, t);
    PairOfSlot(t);
    SlotAfter(t, d);
    SlotAfter(t, d + 0.05);
    assert t + (d + 0.05) == t + d + 0.05;
    PairOfSlot(t + d);
  }

  const FRESH_MAX_AGE: real := 32.5

  /** Age of a decode from a slot start, on the whole-second clock the source uses. */
  predicate FreshAge(start: int, now: real) {
    (now.Floor - start) as real <= FRESH_MAX_AGE
  }

  /** The greatest age the behaviour list gives. */
  const DOCUMENTED_MAX_AGE: real := 17.5

  predicate DocumentedFresh(start: int, now: real) { (now.Floor - start) as real <= DOCUMENTED_MAX_AGE }

  /** In whole seconds the documented limit is 17 and the one in force 32: they
      differ on the ages from 18 to 32 and on no other. */
  lemma FreshnessGap(start: int, now: real)
    ensures FreshAge(start, now) <==> now.Floor - start <= 32
    ensures DocumentedFresh(start, now) <==> now.Floor - start <= 17
    ensures FreshAge(start, now) != DocumentedFresh(start, now) <==> 18 <= now.Floor - start <= 32
  {}
}

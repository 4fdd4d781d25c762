/** The PTT controller: commands, a timed schedule, and a watchdog on a 32-bit
    millisecond counter that wraps. `t` is true uptime in milliseconds. */
module PttFirmware {

  const WRAP: nat := 0x1_0000_0000
  const MAX_HOLD: nat := 20000
  const LINE_MAX: nat := 96

  function Millis(t: nat): (m: nat)
    ensures m < WRAP
  {
    t % WRAP
  }

  // ---------------------------------------------------------- command lines

  datatype Command =
    | Empty | Ping | Status | Shutdown | Resume | SetTime(ms: int) | PttOn | PttOff
    | At(ms: int, on: bool) | AtArgs | Unknown

  predicate StartsWith(s: string, p: string) { |p| <= |s| && s[..|p|] == p }

  function SkipBlanks(s: string): string {
    if s != [] && (s[0] == ' ' || s[0] == '\t') then SkipBlanks(s[1..]) else s
  }

  /** Leading decimal digits as a number. */
  function LeadingNumber(s: string, acc: nat): nat {
    if s != [] && '0' <= s[0] <= '9' then LeadingNumber(s[1..], 10 * acc + (s[0] as int - '0' as int)) else acc
  }

  /** `strtoll`/`atoi` on values that fit their type. */
  function ParseInt(s: string): int {
    var t := SkipBlanks(s);
    if t != [] && t[0] == '-' then 0 - LeadingNumber(t[1..], 0)
    else if t != [] && t[0] == '+' then LeadingNumber(t[1..], 0)
    else LeadingNumber(t, 0)
  }

  function BlankAt(s: string): (n: nat)
    ensures n <= |s| && (n < |s| ==> s[n] == ' ')
  {
    if s == [] || s[0] == ' ' then 0 else 1 + BlankAt(s[1..])
  }

  function ParseLine(raw: string): Command {
    var line := SkipBlanks(raw);
    if line == "" then Empty
    else if line == "PING" then Ping
    else if line == "STATUS" then Status
    else if line == "SHUTDOWN" then Shutdown
    else if line == "RESUME" then Resume
    else if StartsWith(line, "TIME ") then SetTime(ParseInt(line[5..]))
    else if line == "PTT 1" || line == "PTT ON" then PttOn
    else if line == "PTT 0" || line == "PTT OFF" then PttOff
    else if StartsWith(line, "AT ") then
      var p := line[3..];
      var n := BlankAt(p);
      if n == |p| then AtArgs else At(ParseInt(p[..n]), ParseInt(p[n + 1..]) != 0)
    else Unknown
  }

  // ------------------------------------------------------------------ steps

  /** `onAt` is the true time of the last switching on; no branch reads it. */
  datatype Fw = Fw(ptt: bool, lock: bool, schedAt: int, schedVal: int, onSince: nat, onAt: nat)

  const BOOT: Fw := Fw(false, false, 0, -1, 0, 0)

  function SetPtt(s: Fw, on: bool, t: nat): Fw {
    s.(ptt := on, onSince := if on then Millis(t) else 0, onAt := if on then t else s.onAt)
  }

  function Trip(s: Fw, t: nat): Fw { SetPtt(s, false, t).(schedVal := -1, lock := true) }

  function CheckWatchdog(s: Fw, t: nat): Fw {
    if !s.ptt || s.onSince == 0 then s
    else if (Millis(t) - s.onSince) % WRAP >= MAX_HOLD then Trip(s, t) else s
  }

  function ApplySchedule(s: Fw, t: nat, unix: int): Fw {
    if s.schedVal < 0 || unix < s.schedAt then s
    else SetPtt(s, s.schedVal != 0, t).(schedVal := -1)
  }

  function Handle(s: Fw, c: Command, t: nat): Fw {
    match c
    case Shutdown => SetPtt(s.(schedVal := -1, lock := true), false, t)
    case Resume => SetPtt(s.(lock := false), false, t)
    case PttOn => if s.lock then s else SetPtt(s, true, t)
    case PttOff => SetPtt(s, false, t)
    case At(ms, on) => s.(schedAt := ms, schedVal := if on then 1 else 0)
    case _ => s
  }

  /** One pass of the main loop up to the serial input, or one input line. */
  datatype Event = Pass(t: nat, unix: int) | Line(t: nat, c: Command)

  function Step(s: Fw, e: Event): Fw {
    match e
    case Pass(t, unix) => CheckWatchdog(ApplySchedule(s, t, unix), t)
    case Line(t, c) => Handle(s, c, t)
  }

  predicate IsRun(ss: seq<Fw>, es: seq<Event>) {
    && |ss| == |es| + 1 && ss[0] == BOOT
    && (forall k :: 0 <= k < |es| ==> ss[k + 1] == Step(ss[k], es[k]))
  }

  predicate TimeForward(es: seq<Event>) {
    forall i, j :: 0 <= i < j < |es| ==> es[i].t <= es[j].t
  }

  // ------------------------------------------------------ what lines command

  predicate Blank(c: char) { c == ' ' || c == '\t' }

  /** The line is the text, after any blanks. */
  predicate Says(line: string, text: string) {
    |text| <= |line| && line[|line| - |text|..] == text && forall i :: 0 <= i < |line| - |text| ==> Blank(line[i])
  }

  predicate Numeral(d: string) { d != "" && forall i :: 0 <= i < |d| ==> '0' <= d[i] <= '9' }

  /** Decimal value of the digits after those already worth `acc`. */
  function ValueFrom(acc: nat, d: string): nat
    requires forall i :: 0 <= i < |d| ==> '0' <= d[i] <= '9'
  {
    if d == "" then acc else 10 * ValueFrom(acc, d[..|d| - 1]) + (d[|d| - 1] as int - '0' as int)
  }

  /** The text of an order for a time and a value. */
  function Order(ms: string, v: string): string { "AT " + ms + " " + v }

  /** The digits, with a minus sign or without, that write a whole number. */
  predicate Writes(d: string, n: int) {
    || (Numeral(d) && n == ValueFrom(0, d))
    || (d != "" && d[0] == '-' && Numeral(d[1..]) && n == 0 - ValueFrom(0, d[1..]))
  }

  const WORDS: set<string> := {"PTT 1", "PTT ON", "PTT 0", "PTT OFF", "SHUTDOWN", "RESUME"}

  /** No command: none of the words and no `AT` with a second word. */
  predicate NoOrder(text: string) {
    && (text == "" || !Blank(text[0]))
    && text !in WORDS
    && !(|text| >= 3 && text[..3] == "AT " && ' ' in text[3..])
  }

  predicate SaysOn(line: string) { Says(line, "PTT 1") || Says(line, "PTT ON") }

  predicate SaysOff(line: string) { Says(line, "PTT 0") || Says(line, "PTT OFF") }

  /** The words: on, if unlocked; off; off under the lock with nothing waiting; off
      and unlocked. */
  predicate ObeysWords(s: Fw, s': Fw, line: string, t: nat) {
    && (SaysOn(line) ==> s' == if s.lock then s else s.(ptt := true, onSince := t % 0x1_0000_0000, onAt := t))
    && (SaysOff(line) ==> s' == s.(ptt := false, onSince := 0))
    && (Says(line, "SHUTDOWN") ==> s' == s.(ptt := false, onSince := 0, lock := true, schedVal := -1))
    && (Says(line, "RESUME") ==> s' == s.(ptt := false, onSince := 0, lock := false))
  }

  /** The order with these numbers is noted. */
  predicate Notes(s: Fw, s': Fw, line: string, d: string, v: string, n: int) {
    Says(line, Order(d, v)) && Writes(d, n) && Numeral(v) ==>
      s' == s.(schedAt := n, schedVal := if ValueFrom(0, v) != 0 then 1 else 0)
  }

  /** Any other text does nothing. */
  predicate Ignores(s: Fw, s': Fw, line: string, text: string) { Says(line, text) && NoOrder(text) ==> s' == s }

  /** What each line does, in the words of the command list. */
  ghost predicate Obeys(s: Fw, s': Fw, line: string, t: nat) {
    && ObeysWords(s, s', line, t)
    && (forall d, v, n :: Notes(s, s', line, d, v, n))
    && (forall text :: Ignores(s, s', line, text))
  }

  lemma {:induction false} SkipsTo(line: string, text: string)
    requires Says(line, text) && (text == "" || !Blank(text[0]))
    ensures SkipBlanks(line) == text
  {
    if |line| > |text| { SkipsTo(line[1..], text); }
  }

  lemma {:induction false} ValueShift(acc: nat, d: string)
    requires Numeral(d)
    ensures ValueFrom(acc, d) == ValueFrom(10 * acc + (d[0] as int - '0' as int), d[1..])
  {
    if |d| > 1 {
      ValueShift(acc, d[..|d| - 1]);
      assert d[1..][..|d| - 2] == d[..|d| - 1][1..];
    }
  }

  lemma {:induction false} NumberRead(acc: nat, d: string)
    requires forall i :: 0 <= i < |d| ==> '0' <= d[i] <= '9'
    ensures LeadingNumber(d, acc) == ValueFrom(acc, d)
    decreases |d|
  {
    if d != "" {
      NumberRead(10 * acc + (d[0] as int - '0' as int), d[1..]);
      ValueShift(acc, d);
    }
  }

  lemma IntRead(d: string, n: int)
    requires Writes(d, n)
    ensures ParseInt(d) == n && ' ' !in d && d != ""
  {
    if Numeral(d) { NumberRead(0, d); } else { NumberRead(0, d[1..]); }
  }

  lemma {:induction false} BlankAfter(d: string, rest: string)
    requires ' ' !in d
    ensures BlankAt(d + " " + rest) == |d|
  {
    if d != "" {
      assert (d + " " + rest)[1..] == d[1..] + " " + rest;
      BlankAfter(d[1..], rest);
    }
  }

  lemma {:induction false} BlankFound(s: string)
    requires ' ' !in s
    ensures BlankAt(s) == |s|
  {
    if s != [] { BlankFound(s[1..]); }
  }

  /** The text after `AT `, at its first blank. */
  lemma OrderParts(d: string, v: string)
    requires ' ' !in d
    ensures Order(d, v)[3..] == d + " " + v && BlankAt(d + " " + v) == |d|
    ensures (d + " " + v)[..|d|] == d && (d + " " + v)[|d| + 1..] == v
  {
    BlankAfter(d, v);
  }

  lemma OrderRead(line: string, d: string, v: string)
    requires ' ' !in d && SkipBlanks(line) == Order(d, v)
    ensures ParseLine(line) == At(ParseInt(d), ParseInt(v) != 0)
  {
    OrderParts(d, v);
    var text := Order(d, v);
    assert text[0] == 'A' && text[1] == 'T' && text[2] == ' ';
    assert StartsWith(text, "AT ");
    assert !StartsWith(text, "TIME ");
  }

  lemma OrdersObeyed(s: Fw, line: string, d: string, v: string, n: int, t: nat)
    ensures Notes(s, Handle(s, ParseLine(line), t), line, d, v, n)
  {
    if Says(line, Order(d, v)) && Writes(d, n) && Numeral(v) {
      SkipsTo(line, Order(d, v));
      IntRead(d, n);
      IntRead(v, ValueFrom(0, v));
      OrderRead(line, d, v);
    }
  }

  lemma OnRead(line: string, text: string)
    requires Says(line, text) && (text == "PTT 1" || text == "PTT ON")
    ensures ParseLine(line) == PttOn
  {
    SkipsTo(line, text);
  }

  lemma OffRead(line: string, text: string)
    requires Says(line, text) && (text == "PTT 0" || text == "PTT OFF")
    ensures ParseLine(line) == PttOff
  {
    SkipsTo(line, text);
  }

  lemma LockRead(line: string)
    ensures Says(line, "SHUTDOWN") ==> ParseLine(line) == Shutdown
    ensures Says(line, "RESUME") ==> ParseLine(line) == Resume
  {
    if Says(line, "SHUTDOWN") { SkipsTo(line, "SHUTDOWN"); }
    if Says(line, "RESUME") { SkipsTo(line, "RESUME"); }
  }

  lemma WordsObeyed(s: Fw, line: string, t: nat)
    ensures ObeysWords(s, Handle(s, ParseLine(line), t), line, t)
  {
    LockRead(line);
    assert SaysOn(line) ==> ParseLine(line) == PttOn by {
      if SaysOn(line) { OnRead(line, if Says(line, "PTT 1") then "PTT 1" else "PTT ON"); }
    }
    assert SaysOff(line) ==> ParseLine(line) == PttOff by {
      if SaysOff(line) { OffRead(line, if Says(line, "PTT 0") then "PTT 0" else "PTT OFF"); }
    }
    CommandsObeyed(s, ParseLine(line), t);
  }

  lemma CommandsObeyed(s: Fw, c: Command, t: nat)
    ensures var s' := Handle(s, c, t);
            && (c == PttOn ==> s' == if s.lock then s else s.(ptt := true, onSince := t % 0x1_0000_0000, onAt := t))
            && (c == PttOff ==> s' == s.(ptt := false, onSince := 0))
            && (c == Shutdown ==> s' == s.(ptt := false, onSince := 0, lock := true, schedVal := -1))
            && (c == Resume ==> s' == s.(ptt := false, onSince := 0, lock := false))
  {}

  lemma OthersIgnored(s: Fw, line: string, text: string, t: nat)
    ensures Ignores(s, Handle(s, ParseLine(line), t), line, text)
  {
    if Says(line, text) && NoOrder(text) {
      SkipsTo(line, text);
      if StartsWith(text, "AT ") { BlankFound(text[3..]); }
    }
  }

  /** Every line is obeyed as its words say. */
  lemma LineIsObeyed(s: Fw, line: string, t: nat)
    ensures Obeys(s, Handle(s, ParseLine(line), t), line, t)
  {
    var s' := Handle(s, ParseLine(line), t);
    WordsObeyed(s, line, t);
    forall d, v, n ensures Notes(s, s', line, d, v, n) { OrdersObeyed(s, line, d, v, n, t); }
    forall text ensures Ignores(s, s', line, text) { OthersIgnored(s, line, text, t); }
  }

  // --------------------------------------------------------------- watchdog

  predicate Stamped(s: Fw) { s.ptt ==> s.onSince == Millis(s.onAt) }

  /** Elapsed time is read correctly across a wrap of the counter. */
  lemma ElapsedAcrossWrap(onAt: nat, t: nat)
    requires onAt <= t
    ensures (Millis(t) - Millis(onAt)) % WRAP == (t - onAt) % WRAP
  {
    var a, b := t / WRAP, onAt / WRAP;
    assert Millis(t) - Millis(onAt) == (t - onAt) - WRAP * (a - b);
    ModShift(t - onAt, a - b);
  }

  lemma {:induction false} ModShift(x: int, k: int)
    ensures (x - WRAP * k) % WRAP == x % WRAP
    decreases if k < 0 then -k else k
  {
    if k > 0 { ModShift(x, k - 1); } else if k < 0 { ModShift(x, k + 1); }
  }

  /** The watchdog switches off exactly when PTT is on, its stamp is not zero, and
      the true time on, taken modulo 2^32 ms, has reached 20 s. */
  lemma WatchdogExactly(s: Fw, t: nat)
    requires Stamped(s) && s.onAt <= t
    ensures CheckWatchdog(s, t) != s <==>
              s.ptt && s.onAt % 0x1_0000_0000 != 0 && (t - s.onAt) % 0x1_0000_0000 >= 20000
    ensures CheckWatchdog(s, t) != s ==>
              !CheckWatchdog(s, t).ptt && CheckWatchdog(s, t).lock && CheckWatchdog(s, t).schedVal == -1
  {
    ElapsedAcrossWrap(s.onAt, t);
  }

  lemma {:induction false} RunStamped(ss: seq<Fw>, es: seq<Event>, k: nat)
    requires IsRun(ss, es) && TimeForward(es) && k < |ss|
    ensures Stamped(ss[k]) && (k > 0 ==> ss[k].onAt <= es[k - 1].t)
    ensures ss[k].ptt ==> k > 0
  {
    if k > 0 {
      RunStamped(ss, es, k - 1);
      if k > 1 { assert es[k - 2].t <= es[k - 1].t; }
    }
  }

  lemma StampedBefore(ss: seq<Fw>, es: seq<Event>, k: nat)
    requires IsRun(ss, es) && TimeForward(es) && k < |es|
    ensures Stamped(ss[k]) && (ss[k].ptt ==> ss[k].onAt <= es[k].t)
  {
    RunStamped(ss, es, k);
    if k > 0 { assert es[k - 1].t <= es[k].t; }
  }

  /** Time of the last pass among the first k events, or boot. */
  function LastPass(es: seq<Event>, k: nat): nat
    requires k <= |es|
  {
    if k == 0 then 0 else if es[k - 1].Pass? then es[k - 1].t else LastPass(es, k - 1)
  }

  /** Passes follow each other within g milliseconds. */
  predicate Timely(es: seq<Event>, g: nat) {
    forall k :: 0 <= k < |es| && es[k].Pass? ==> es[k].t <= LastPass(es, k) + g
  }

  predicate HoldBounded(s: Fw, last: nat) {
    s.ptt && Millis(s.onAt) != 0 ==> last < s.onAt + MAX_HOLD
  }

  /** If the main loop comes round at least every g ms (g below 2^32 - 20000),
      then right after every pass PTT has been on for less than 20 s since it was
      last switched on, unless it was switched on at counter value zero. */
  lemma {:induction false} PttNeverStuck(ss: seq<Fw>, es: seq<Event>, g: nat, k: nat)
    requires IsRun(ss, es) && TimeForward(es) && Timely(es, g) && g < WRAP - MAX_HOLD && k < |ss|
    ensures HoldBounded(ss[k], LastPass(es, k))
  {
    if k > 0 {
      var s, e, last := ss[k - 1], es[k - 1], LastPass(es, k - 1);
      assert HoldBounded(s, last) by { PttNeverStuck(ss, es, g, k - 1); }
      assert Stamped(s) && (s.ptt ==> s.onAt <= e.t) by { StampedBefore(ss, es, k - 1); }
      assert last <= e.t by { LastPassBefore(es, k - 1, k - 1); }
      HoldStaysBounded(s, e, last, g);
    }
  }

  lemma {:induction false} LastPassBefore(es: seq<Event>, k: nat, j: nat)
    requires TimeForward(es) && k <= j < |es|
    ensures LastPass(es, k) <= es[j].t
  {
    if k > 0 {
      assert es[k - 1].t <= es[j].t;
      if !es[k - 1].Pass? { LastPassBefore(es, k - 1, j); }
    }
  }

  lemma HoldStaysBounded(s: Fw, e: Event, last: nat, g: nat)
    requires Stamped(s) && (s.ptt ==> s.onAt <= e.t) && HoldBounded(s, last) && last <= e.t
    requires e.Pass? ==> e.t <= last + g && g < WRAP - MAX_HOLD
    ensures HoldBounded(Step(s, e), if e.Pass? then e.t else last)
  {
    match e
    case Line(_, _) =>
    case Pass(t, unix) =>
      var s1 := ApplySchedule(s, t, unix);
      if s1.ptt {
        WatchdogExactly(s1, t);
        if Millis(s1.onAt) != 0 && s1.onAt + MAX_HOLD <= t { assert t - s1.onAt < WRAP; }
      }
  }

  // --------------------------------------------------------------- schedule

  /** The pass ends with the watchdog switching off. */
  predicate Trips(s: Fw, e: Event) {
    e.Pass? && CheckWatchdog(ApplySchedule(s, e.t, e.unix), e.t) != ApplySchedule(s, e.t, e.unix)
  }

  /** The event leaves an order for time `ms` waiting. */
  predicate Spares(s: Fw, e: Event, ms: int) {
    if e.Pass? then e.unix < ms && !Trips(s, e) else !e.c.At? && !e.c.Shutdown?
  }

  lemma {:induction false} OrderWaits(ss: seq<Fw>, es: seq<Event>, i: nat, j: nat)
    requires IsRun(ss, es) && i < j < |ss| && es[i].Line? && es[i].c.At?
    requires forall k :: i < k < j ==> Spares(ss[k], es[k], es[i].c.ms)
    ensures ss[j].schedAt == es[i].c.ms && ss[j].schedVal == if es[i].c.on then 1 else 0
    decreases j
  {
    if i + 1 < j { OrderWaits(ss, es, i, j - 1); }
  }

  /** An AT order takes effect at the first pass whose clock has reached its time,
      unless a newer AT, SHUTDOWN or the watchdog comes first, and only there: PTT is
      then as ordered, or off if the watchdog trips in the same pass, and nothing
      is waiting any more. */
  lemma AtTakesEffect(ss: seq<Fw>, es: seq<Event>, i: nat, j: nat)
    requires IsRun(ss, es) && i < j < |es| && es[i].Line? && es[i].c.At?
    requires forall k :: i < k < j ==> Spares(ss[k], es[k], es[i].c.ms)
    requires es[j].Pass? && es[j].unix >= es[i].c.ms
    ensures ss[j + 1].schedVal == -1
    ensures if Trips(ss[j], es[j]) then !ss[j + 1].ptt else ss[j + 1].ptt == es[i].c.on
  {
    OrderWaits(ss, es, i, j);
  }

  // ------------------------------------------------------------------- lock

  predicate LockSafe(s: Fw) { s.lock ==> !s.ptt && s.schedVal == -1 }

  /** A step keeps a locked controller silent exactly when it does not handle an
      AT line while locked: that command does not look at the lock. */
  lemma LockStep(s: Fw, e: Event)
    requires LockSafe(s)
    ensures LockSafe(Step(s, e)) <==> !(e.Line? && e.c.At? && s.lock)
  {}

  /** While no AT line is handled under the lock, the lock means PTT off and
      nothing scheduled, along the whole run. */
  lemma {:induction false} LockMeansSilence(ss: seq<Fw>, es: seq<Event>, k: nat)
    requires IsRun(ss, es) && k < |ss|
    requires forall i :: 0 <= i < k ==> !(es[i].Line? && es[i].c.At? && ss[i].lock)
    ensures ss[k].lock ==> !ss[k].ptt && ss[k].schedVal == -1
  {
    if k > 0 {
      LockMeansSilence(ss, es, k - 1);
      LockStep(ss[k - 1], es[k - 1]);
    }
  }

  /** The lock ends only by RESUME. */
  lemma OnlyResumeUnlocks(s: Fw, e: Event)
    ensures s.lock && !Step(s, e).lock <==> s.lock && e.Line? && e.c.Resume?
  {}

  // ------------------------------------------------------------- the program

  /** The state of the line assembler after some characters: the lines completed
      and the characters held. Returns are skipped, overlong lines cut. */
  function Assemble(cs: string): (seq<string>, string) {
    if cs == [] then ([], "")
    else
      var (lines, held) := Assemble(cs[..|cs| - 1]);
      var c := cs[|cs| - 1];
      if c == '\r' then (lines, held)
      else if c == '\n' then (lines + [held], "")
      else if |held| + 1 < LINE_MAX then (lines, held + [c])
      else (lines, held)
  }

  predicate OneLine(l: string) { forall i :: 0 <= i < |l| ==> l[i] != '\r' && l[i] != '\n' }

  /** Characters that end no line are held, up to 95 of them. */
  lemma {:induction false} HoldsText(before: string, l: string)
    requires Assemble(before).1 == "" && OneLine(l)
    ensures Assemble(before + l) == (Assemble(before).0, if |l| < 96 then l else l[..95])
  {
    if l == "" {
      assert before + l == before;
    } else {
      var front := l[..|l| - 1];
      assert (before + l)[..|before + l| - 1] == before + front;
      HoldsText(before, front);
      if |l| <= 96 { assert front == l[..|l| - 1]; }
      if |l| < 96 { assert l == front + [l[|l| - 1]]; } else { assert front[..95] == l[..95]; }
    }
  }

  /** A line end completes what is held, cut to 95 characters, and holds nothing; a
      carriage return is skipped wherever it stands. */
  lemma LineCompleted(before: string, l: string)
    requires Assemble(before).1 == "" && OneLine(l)
    ensures Assemble(before + l + "\n") == (Assemble(before).0 + [if |l| < 96 then l else l[..95]], "")
    ensures Assemble(before + l + "\r") == Assemble(before + l)
  {
    HoldsText(before, l);
    assert (before + l + "\n")[..|before + l|] == before + l;
    assert (before + l + "\r")[..|before + l|] == before + l;
  }

  function HandleLines(s: Fw, lines: seq<string>, t: nat): Fw {
    if lines == [] then s
    else Handle(HandleLines(s, lines[..|lines| - 1], t), ParseLine(lines[|lines| - 1]), t)
  }

  /** The lines are obeyed one after the other. */
  ghost predicate ObeyedInTurn(ss: seq<Fw>, lines: seq<string>, t: nat) {
    |ss| == |lines| + 1 && forall k :: 0 <= k < |lines| ==> Obeys(ss[k], ss[k + 1], lines[k], t)
  }

  lemma {:induction false} LinesAreObeyed(s: Fw, lines: seq<string>, t: nat) returns (ss: seq<Fw>)
    ensures ObeyedInTurn(ss, lines, t) && ss[0] == s && ss[|lines|] == HandleLines(s, lines, t)
  {
    if lines == [] {
      ss := [s];
    } else {
      var front, last := lines[..|lines| - 1], lines[|lines| - 1];
      var before := LinesAreObeyed(s, front, t);
      LineIsObeyed(before[|front|], last, t);
      ss := before + [HandleLines(s, lines, t)];
      forall k | 0 <= k < |lines| ensures Obeys(ss[k], ss[k + 1], lines[k], t) {
        if k < |front| {
          assert Obeys(before[k], before[k + 1], front[k], t);
          assert ss[k] == before[k] && ss[k + 1] == before[k + 1] && lines[k] == front[k];
        } else {
          assert ss[k] == before[|front|] && lines[k] == last;
        }
      }
    }
  }

  class Controller {
    var ptt: bool
    var lock: bool
    var schedAt: int
    var schedVal: int
    var onSince: nat
    ghost var onAt: nat
    ghost var received: string
    var buf: string

    ghost function State(): Fw
      reads this
    {
      Fw(ptt, lock, schedAt, schedVal, onSince, onAt)
    }

    ghost predicate Valid()
      reads this
    {
      buf == Assemble(received).1 && |buf| < LINE_MAX
    }

    constructor ()
      ensures State() == BOOT && Valid() && received == ""
    {
      ptt, lock, schedAt, schedVal, onSince, onAt := false, false, 0, -1, 0, 0;
      received, buf := "", "";
    }

    method SwitchPtt(on: bool, t: nat)
      modifies this`ptt, this`onSince, this`onAt
      ensures State() == SetPtt(old(State()), on, t)
    {
      ptt := on;
      onSince := if on then Millis(t) else 0;
      onAt := if on then t else onAt;
    }

    method CheckPttWatchdog(t: nat)
      modifies this`ptt, this`onSince, this`onAt, this`schedVal, this`lock
      ensures State() == CheckWatchdog(old(State()), t)
    {
      if !ptt || onSince == 0 { return; }
      var elapsed := (Millis(t) - onSince) % WRAP;
      if elapsed >= MAX_HOLD {
        SwitchPtt(false, t);
        schedVal := -1;
        lock := true;
      }
    }

    method ApplyDueSchedule(t: nat, unix: int)
      modifies this`ptt, this`onSince, this`onAt, this`schedVal
      ensures State() == ApplySchedule(old(State()), t, unix)
    {
      if schedVal < 0 { return; }
      if unix >= schedAt {
        SwitchPtt(schedVal != 0, t);
        schedVal := -1;
      }
    }

    method HandleLine(line: string, t: nat)
      modifies this`ptt, this`onSince, this`onAt, this`schedVal, this`schedAt, this`lock
      ensures State() == Handle(old(State()), ParseLine(line), t)
      ensures Obeys(old(State()), State(), line, t)
    {
      LineIsObeyed(State(), line, t);
      var c := ParseLine(line);
      match c {
        case Shutdown =>
          schedVal := -1;
          lock := true;
          SwitchPtt(false, t);
        case Resume =>
          lock := false;
          SwitchPtt(false, t);
        case PttOn =>
          if lock { return; }
          SwitchPtt(true, t);
        case PttOff =>
          SwitchPtt(false, t);
        case At(ms, on) =>
          schedAt := ms;
          schedVal := if on then 1 else 0;
        case _ =>
      }
    }

    /** One pass of the main loop, with the characters waiting on the serial
        port: the lines they complete are handled, however the input is cut. */
    method Loop(t: nat, unix: int, input: string)
      requires Valid()
      modifies this
      ensures Valid() && received == old(received) + input
      ensures Assemble(old(received)).0 <= Assemble(received).0
      ensures State() == HandleLines(Step(old(State()), Pass(t, unix)),
                                     Assemble(received).0[|Assemble(old(received)).0|..], t)
    {
      ApplyDueSchedule(t, unix);
      CheckPttWatchdog(t);
      ghost var s1, before := State(), Assemble(received).0;
      assert before[|before|..] == [];
      for i := 0 to |input|
        invariant Valid() && received == old(received) + input[..i]
        invariant before <= Assemble(received).0
        invariant State() == HandleLines(s1, Assemble(received).0[|before|..], t)
      {
        var c := input[i];
        ghost var lines := Assemble(received).0;
        assert (received + [c])[..|received|] == received;
        assert received + [c] == old(received) + input[..i + 1];
        received := received + [c];
        if c == '\n' {
          assert (lines + [buf])[|before|..] == lines[|before|..] + [buf];
          assert (lines[|before|..] + [buf])[..|lines[|before|..]|] == lines[|before|..];
          HandleLine(buf, t);
          buf := "";
        } else if c != '\r' && |buf| + 1 < LINE_MAX {
          buf := buf + [c];
        }
      }
      assert input[..|input|] == input;
    }
  }
}

/** The contact log and its cache of stations worked today. The log file is a
    sequence of lines with their lengths in bytes; loading reads its last
    256 KiB. Days are UTC day numbers. */
module WorkedLog {
  import opened Base
  import opened Protocol

  const TAIL_BYTES: int := 262144

  function LowerChar(c: char): char {
    if 'A' <= c <= 'Z' then c - 'A' + 'a' else c
  }

  function NormBand(band: string): string {
    var b := Strip(band);
    seq(|b|, i requires 0 <= i < |b| => LowerChar(b[i]))
  }

  datatype Record = Record(call: string, band: string, mode: string, day: int)

  /** A line holds a record with a usable time, or nothing the loader can use. */
  datatype Line = Line(record: Option<Record>, bytes: nat)

  datatype Key = Key(call: string, band: string, mode: string)

  /** The key under which a query or an append files a contact. */
  function KeyOf(call: string, band: string, mode: string): Key {
    Key(CallKey(call), NormBand(band), Upper(Strip(if mode == "" then "FT8" else mode)))
  }

  function RecordKey(r: Record): Key { KeyOf(r.call, r.band, r.mode) }

  /** The key the loader files a line under, if it does. */
  function LoadedKey(l: Line, today: int): Option<Key> {
    if l.record.None? then None
    else
      var r := l.record.value;
      var mode := Upper(Strip(r.mode));
      if CallKey(r.call) == "" || NormBand(r.band) == "" || r.day != today then None
      else Some(Key(CallKey(r.call), NormBand(r.band), if mode == "" then "FT8" else mode))
  }

  /** Call and band are present and the mode is not blank, though it may be absent:
      both the append and the loader then take FT8. */
  predicate Filled(r: Record) {
    CallKey(r.call) != "" && NormBand(r.band) != "" && (r.mode == "" || Strip(r.mode) != "")
  }

  lemma FilledKeys(r: Record, bytes: nat, today: int)
    requires Filled(r)
    ensures LoadedKey(Line(Some(r), bytes), today) == if r.day == today then Some(RecordKey(r)) else None
  {
    assert Upper(Strip("FT8")) == "FT8" && Upper(Strip("")) == "";
  }

  function Bytes(file: seq<Line>): nat {
    if file == [] then 0 else file[0].bytes + Bytes(file[1..])
  }

  /** The whole lines within the last TAIL_BYTES bytes; a line cut by the seek is unreadable. */
  function Tail(file: seq<Line>): seq<Line> {
    if Bytes(file) <= TAIL_BYTES then file else Tail(file[1..])
  }

  function KeysIn(lines: seq<Line>, today: int): set<Key> {
    set i | 0 <= i < |lines| && LoadedKey(lines[i], today).Some? :: LoadedKey(lines[i], today).value
  }

  // ----------------------------------------------------- what a key stands for

  function ModeOr(mode: string, absent: bool): string { if absent then "FT8" else Upper(Strip(mode)) }

  /** The record is of today, with the call and, in any case and with any blanks around
      them, the band and the mode asked for; no mode, or a blank one in the record,
      stands for FT8. */
  predicate Matches(r: Record, call: string, band: string, mode: string, today: int) {
    && r.day == today && CallKey(r.call) == CallKey(call) != ""
    && Upper(Strip(r.band)) == Upper(Strip(band)) && Strip(band) != ""
    && ModeOr(r.mode, Strip(r.mode) == "") == ModeOr(mode, mode == "")
  }

  lemma CaseAside(a: string, b: string)
    ensures NormBand(a) == NormBand(b) <==> Upper(Strip(a)) == Upper(Strip(b))
    ensures NormBand(a) == "" <==> Strip(a) == ""
  {
    var x, y := Strip(a), Strip(b);
    assert |NormBand(a)| == |x| && |NormBand(b)| == |y|;
    if NormBand(a) == NormBand(b) {
      forall i | 0 <= i < |x| ensures UpperChar(x[i]) == UpperChar(y[i]) {
        assert NormBand(a)[i] == LowerChar(x[i]) && NormBand(b)[i] == LowerChar(y[i]);
      }
      assert Upper(x) == Upper(y);
    }
    if Upper(x) == Upper(y) {
      assert |x| == |Upper(x)| == |y|;
      forall i | 0 <= i < |x| ensures LowerChar(x[i]) == LowerChar(y[i]) {
        assert Upper(x)[i] == UpperChar(x[i]) && Upper(y)[i] == UpperChar(y[i]);
      }
      assert NormBand(a) == NormBand(b);
    }
  }

  lemma UpperBlank(mode: string)
    ensures Upper(Strip(mode)) == "" <==> Strip(mode) == ""
  {}

  lemma KeyMatches(l: Line, call: string, band: string, mode: string, today: int)
    ensures LoadedKey(l, today) == Some(KeyOf(call, band, mode))
       <==> l.record.Some? && Matches(l.record.value, call, band, mode, today)
  {
    assert Upper(Strip("FT8")) == "FT8";
    if l.record.Some? {
      CaseAside(l.record.value.band, band);
      UpperBlank(l.record.value.mode);
    }
  }

  predicate Holds(lines: seq<Line>, call: string, band: string, mode: string, today: int) {
    exists i :: 0 <= i < |lines| && lines[i].record.Some? && Matches(lines[i].record.value, call, band, mode, today)
  }

  /** A query finds a contact among the lines exactly when one of them is a record
      that matches. */
  lemma KeysMatchExactly(lines: seq<Line>, call: string, band: string, mode: string, today: int)
    ensures KeyOf(call, band, mode) in KeysIn(lines, today) <==> Holds(lines, call, band, mode, today)
  {
    forall i | 0 <= i < |lines|
      ensures LoadedKey(lines[i], today) == Some(KeyOf(call, band, mode))
         <==> lines[i].record.Some? && Matches(lines[i].record.value, call, band, mode, today)
    {
      KeyMatches(lines[i], call, band, mode, today);
    }
  }

  // ------------------------------------------------------------------ steps

  datatype Naplo = Naplo(file: seq<Line>, worked: set<Key>, cacheDay: int)

  function Load(s: Naplo, today: int): Naplo {
    s.(cacheDay := today, worked := KeysIn(Tail(s.file), today))
  }

  function EnsureToday(s: Naplo, today: int): Naplo {
    if s.cacheDay != today then Load(s, today) else s
  }

  function Append(s: Naplo, r: Record, bytes: nat, today: int): Naplo {
    var s1 := EnsureToday(s.(file := s.file + [Line(Some(r), bytes)]), today);
    if r.day == today then s1.(worked := s1.worked + {RecordKey(r)}) else s1
  }

  datatype Event =
    | AppendQso(r: Record, bytes: nat, today: int)
    | Query(today: int)
    | Foreign(line: Line)  // another program adds a line

  function Step(s: Naplo, e: Event): Naplo {
    match e
    case AppendQso(r, bytes, today) => Append(s, r, bytes, today)
    case Query(today) => EnsureToday(s, today)
    case Foreign(line) => s.(file := s.file + [line])
  }

  predicate IsRun(ss: seq<Naplo>, es: seq<Event>, today: int) {
    && |ss| == |es| + 1
    && ss[0] == Load(ss[0], today)
    && (forall k :: 0 <= k < |es| ==> ss[k + 1] == Step(ss[k], es[k]))
    && (forall k :: 0 <= k < |es| && es[k].AppendQso? ==> Filled(es[k].r))
  }

  // ------------------------------------------------------------------ proofs

  /** The tail is the longest run of whole lines at the end within 256 KiB. */
  lemma {:induction false} TailIsSuffix(file: seq<Line>) returns (n: nat)
    ensures n <= |file| && Tail(file) == file[n..] && Bytes(file[n..]) <= 262144
    ensures n > 0 ==> Bytes(file[n - 1..]) > 262144
  {
    if Bytes(file) <= TAIL_BYTES {
      n := 0;
    } else {
      var m := TailIsSuffix(file[1..]);
      n := m + 1;
      assert file[1..][m..] == file[n..];
      if m > 0 { assert file[1..][m - 1..] == file[n - 1..]; } else { assert file[0..] == file; }
    }
  }

  lemma KeysInAppend(file: seq<Line>, l: Line, today: int)
    ensures KeysIn(file + [l], today)
         == KeysIn(file, today) + (if LoadedKey(l, today).Some? then {LoadedKey(l, today).value} else {})
  {
    var g := file + [l];
    assert forall i :: 0 <= i < |file| ==> g[i] == file[i];
    assert g[|file|] == l;
    forall k | k in KeysIn(file, today) + (if LoadedKey(l, today).Some? then {LoadedKey(l, today).value} else {})
      ensures k in KeysIn(g, today)
    {
      if k in KeysIn(file, today) {
        var i :| 0 <= i < |file| && LoadedKey(file[i], today) == Some(k);
        assert LoadedKey(g[i], today) == Some(k);
      } else {
        assert LoadedKey(g[|file|], today) == Some(k);
      }
    }
  }

  lemma TailKeysAreKeys(file: seq<Line>, today: int)
    ensures KeysIn(Tail(file), today) <= KeysIn(file, today)
  {
    var n := TailIsSuffix(file);
    forall k | k in KeysIn(Tail(file), today) ensures k in KeysIn(file, today) {
      var i :| 0 <= i < |file[n..]| && LoadedKey(file[n..][i], today) == Some(k);
      assert LoadedKey(file[n + i], today) == Some(k);
    }
  }

  predicate Sound(s: Naplo) { s.worked <= KeysIn(s.file, s.cacheDay) }

  predicate Complete(s: Naplo) { s.worked == KeysIn(s.file, s.cacheDay) }

  lemma StepSound(s: Naplo, e: Event)
    requires Sound(s) && (e.AppendQso? ==> Filled(e.r))
    ensures Sound(Step(s, e))
  {
    match e {
      case AppendQso(r, bytes, today) =>
        FilledKeys(r, bytes, today);
        KeysInAppend(s.file, Line(Some(r), bytes), today);
        TailKeysAreKeys(s.file + [Line(Some(r), bytes)], today);
      case Query(today) => TailKeysAreKeys(s.file, today);
      case Foreign(line) => KeysInAppend(s.file, line, s.cacheDay);
    }
  }

  lemma LoadedKeysAreFilled(file: seq<Line>, today: int, k: Key)
    requires k in KeysIn(file, today)
    ensures k.call != "" && k.band != "" && k.mode != ""
  {}

  /** An append keeps the cache sound exactly when the record is of another day, or
      has a call, a band and a mode that is not blank: the loader skips or renames
      the others, the append files them. */
  lemma AppendSoundExactly(s: Naplo, r: Record, bytes: nat, today: int)
    requires Sound(s)
    ensures Sound(Append(s, r, bytes, today)) <==> r.day != today || Filled(r)
  {
    var line := Line(Some(r), bytes);
    var file := s.file + [line];
    KeysInAppend(s.file, line, s.cacheDay);
    KeysInAppend(s.file, line, today);
    TailKeysAreKeys(file, today);
    if Filled(r) {
      FilledKeys(r, bytes, today);
    } else if r.day == today {
      if RecordKey(r) in KeysIn(file, today) {
        LoadedKeysAreFilled(file, today, RecordKey(r));
        UpperBlank(r.mode);
        assert false;
      }
    }
  }

  /** The cache never claims a contact that is not in the log for the cached day. */
  lemma {:induction false} CacheIsSound(ss: seq<Naplo>, es: seq<Event>, today: int, n: nat)
    requires IsRun(ss, es, today) && n <= |es|
    ensures ss[n].worked <= KeysIn(ss[n].file, ss[n].cacheDay)
  {
    if n == 0 {
      TailKeysAreKeys(ss[0].file, today);
    } else {
      CacheIsSound(ss, es, today, n - 1);
      StepSound(ss[n - 1], es[n - 1]);
    }
  }

  /** A contact this instance logged on its day stays in the cache until an event
      of another day, whatever else is appended, asked or written by others. */
  lemma {:induction false} OwnContactsStay(ss: seq<Naplo>, es: seq<Event>, today: int, i: nat, j: nat)
    requires IsRun(ss, es, today) && i < j <= |es|
    requires es[i].AppendQso? && es[i].r.day == es[i].today
    requires forall k :: i < k < j && !es[k].Foreign? ==> es[k].today == es[i].today
    ensures RecordKey(es[i].r) in ss[j].worked && ss[j].cacheDay == es[i].today
    decreases j
  {
    if i + 1 < j { OwnContactsStay(ss, es, today, i, j - 1); }
  }

  /** Step k loads the cache anew. */
  predicate Loads(s: Naplo, e: Event) { !e.Foreign? && s.cacheDay != e.today }

  /** No line before the n-th is a contact of the day, and the rest fits in the tail. */
  predicate FitsFrom(file: seq<Line>, today: int, n: nat) {
    && n <= |file| && Bytes(file[n..]) <= 262144
    && (forall i :: 0 <= i < n ==> LoadedKey(file[i], today).None?)
  }

  /** The day's records lie in the tail that a load reads. */
  ghost predicate DayFits(file: seq<Line>, today: int) { exists n: nat :: FitsFrom(file, today, n) }

  /** Then the load finds every one of them. */
  lemma {:induction false} FittingDayIsReached(file: seq<Line>, today: int, n: nat)
    requires FitsFrom(file, today, n)
    ensures KeysIn(Tail(file), today) == KeysIn(file, today)
    decreases n
  {
    if Bytes(file) > TAIL_BYTES {
      assert n > 0 by { assert file[0..] == file; }
      var rest := file[1..];
      assert file == [file[0]] + rest;
      assert rest[n - 1..] == file[n..];
      forall i | 0 <= i < n - 1 ensures LoadedKey(rest[i], today).None? { assert rest[i] == file[i + 1]; }
      FittingDayIsReached(rest, today, n - 1);
      KeysWithoutFirst(file, today);
    }
  }

  lemma KeysWithoutFirst(file: seq<Line>, today: int)
    requires file != [] && LoadedKey(file[0], today).None?
    ensures KeysIn(file[1..], today) == KeysIn(file, today)
  {
    forall k | k in KeysIn(file, today) ensures k in KeysIn(file[1..], today) {
      var i :| 0 <= i < |file| && LoadedKey(file[i], today) == Some(k);
      assert file[1..][i - 1] == file[i];
    }
  }

  /** The file a step reads if it loads. */
  function FileAt(s: Naplo, e: Event): seq<Line> {
    if e.AppendQso? then s.file + [Line(Some(e.r), e.bytes)] else s.file
  }

  lemma StepComplete(s: Naplo, e: Event)
    requires Complete(s) && !e.Foreign? && (e.AppendQso? ==> Filled(e.r))
    requires Loads(s, e) ==> DayFits(FileAt(s, e), e.today)
    ensures Complete(Step(s, e))
  {
    if Loads(s, e) {
      var n: nat :| FitsFrom(FileAt(s, e), e.today, n);
      FittingDayIsReached(FileAt(s, e), e.today, n);
    }
    if e.AppendQso? {
      FilledKeys(e.r, e.bytes, e.today);
      KeysInAppend(s.file, Line(Some(e.r), e.bytes), e.today);
    }
  }

  /** With no other writer, the cache is exactly the contacts logged on the cached
      day, whenever at each load the day's records lie within the tail that is read. */
  lemma {:induction false} CacheIsComplete(ss: seq<Naplo>, es: seq<Event>, today: int, n: nat)
    requires IsRun(ss, es, today) && n <= |es|
    requires DayFits(ss[0].file, today)
    requires forall k :: 0 <= k < n ==>
               && !es[k].Foreign?
               && (Loads(ss[k], es[k]) ==> DayFits(FileAt(ss[k], es[k]), es[k].today))
    ensures ss[n].worked == KeysIn(ss[n].file, ss[n].cacheDay)
  {
    if n == 0 {
      var m: nat :| FitsFrom(ss[0].file, today, m);
      FittingDayIsReached(ss[0].file, today, m);
    } else {
      CacheIsComplete(ss, es, today, n - 1);
      StepComplete(ss[n - 1], es[n - 1]);
    }
  }

  /** The case of a log no longer than the tail. */
  lemma ShortLogIsReached(file: seq<Line>, today: int)
    requires Bytes(file) <= 262144
    ensures DayFits(file, today) && KeysIn(Tail(file), today) == KeysIn(file, today)
  {
    assert file[0..] == file;
    assert FitsFrom(file, today, 0);
  }

  // ------------------------------------------------------------- the object

  class ForgalmiNaplo {
    var file: seq<Line>
    var worked: set<Key>
    var cacheDay: int

    ghost function State(): Naplo
      reads this
    {
      Naplo(file, worked, cacheDay)
    }

    ghost predicate Valid()
      reads this
    {
      Sound(State())
    }

    constructor (existing: seq<Line>, today: int)
      ensures Valid() && State() == Load(Naplo(existing, {}, 0), today)
    {
      file := existing;
      new;
      LoadWorkedCache(today);
    }

    method LoadWorkedCache(today: int)
      modifies this`worked, this`cacheDay
      ensures State() == Load(old(State()), today) && Valid()
    {
      cacheDay := today;
      worked := {};
      var lines := Tail(file);
      for i := 0 to |lines|
        invariant cacheDay == today && worked == KeysIn(lines[..i], today)
      {
        KeysInAppend(lines[..i], lines[i], today);
        assert lines[..i + 1] == lines[..i] + [lines[i]];
        var k := LoadedKey(lines[i], today);
        if k.Some? { worked := worked + {k.value}; }
      }
      assert lines[..|lines|] == lines;
      TailKeysAreKeys(file, today);
    }

    method EnsureTodayCache(today: int)
      requires Valid()
      modifies this`worked, this`cacheDay
      ensures State() == EnsureToday(old(State()), today) && Valid()
    {
      if cacheDay != today { LoadWorkedCache(today); }
    }

    /** A yes means the log holds a record of today that matches; with a complete
        cache a no means it does not. */
    method RecentlyWorked(call: string, band: string, mode: string, today: int) returns (yes: bool)
      requires Valid()
      modifies this`worked, this`cacheDay
      ensures State() == EnsureToday(old(State()), today) && Valid()
      ensures yes == (KeyOf(call, band, mode) in worked)
      ensures yes ==> Holds(file, call, band, mode, today)
      ensures Complete(State()) ==> (yes <==> Holds(file, call, band, mode, today))
    {
      EnsureTodayCache(today);
      KeysMatchExactly(file, call, band, mode, today);
      yes := KeyOf(call, band, mode) in worked;
    }

    method LogQso(r: Record, bytes: nat, today: int)
      requires Valid()
      modifies this
      ensures State() == Append(old(State()), r, bytes, today)
      ensures Filled(r) || r.day != today ==> Valid()
    {
      KeysInAppend(file, Line(Some(r), bytes), cacheDay);
      file := file + [Line(Some(r), bytes)];
      EnsureTodayCache(today);
      if r.day == today { worked := worked + {RecordKey(r)}; }
      if Filled(r) { FilledKeys(r, bytes, today); }
      KeysInAppend(old(file), Line(Some(r), bytes), today);
    }
  }
}

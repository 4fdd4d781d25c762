/** Daily record files written through a memory buffer, and a reader that
    follows a growing file. A file is the sequence of records written to it. */
module BufferedLog {
  import opened Base

  datatype Kind = Decodes | Candidates

  datatype Rec = Rec(time: real, text: string)

  datatype File = File(day: int, kind: Kind)

  type Disk = map<File, seq<Rec>>

  const FLUSH_INTERVAL: real := 300.0

  function DayOf(r: Rec): int { (r.time / 86400.0).Floor }

  /** The day of a record is the one whose 86400 seconds hold its time. */
  lemma DayHoldsTime(r: Rec, day: int)
    ensures DayOf(r) == day <==> 86400.0 * day as real <= r.time < 86400.0 * (day + 1) as real
  {
    assert r.time / 86400.0 * 86400.0 == r.time;
  }

  function Content(disk: Disk, f: File): seq<Rec> {
    if f in disk then disk[f] else []
  }

  function AppendTo(disk: Disk, f: File, recs: seq<Rec>): Disk {
    disk[f := Content(disk, f) + recs]
  }

  /** The records of one day, in order. */
  function OfDay(buf: seq<Rec>, day: int): seq<Rec> {
    if buf == [] then []
    else
      var last := buf[|buf| - 1];
      OfDay(buf[..|buf| - 1], day) + (if DayOf(last) == day then [last] else [])
  }

  lemma {:induction false} OfDayAppend(a: seq<Rec>, b: seq<Rec>, day: int)
    ensures OfDay(a + b, day) == OfDay(a, day) + OfDay(b, day)
  {
    if b == [] {
      assert a + b == a;
    } else {
      var m := |b| - 1;
      assert (a + b)[..|a + b| - 1] == a + b[..m];
      OfDayAppend(a, b[..m], day);
    }
  }

  lemma OfDaySnoc(a: seq<Rec>, r: Rec, day: int)
    ensures OfDay(a + [r], day) == OfDay(a, day) + (if DayOf(r) == day then [r] else [])
  {
    assert (a + [r])[..|a|] == a;
  }

  /** What a reader of the file would see if the pending records were written. */
  function View(disk: Disk, buf: seq<Rec>, f: File): seq<Rec> {
    Content(disk, f) + OfDay(buf, f.day)
  }

  /** Buffering is transparent for one kind: for every day the file followed by
      the pending records is what was there at the start followed by everything
      appended for that day since, in order. */
  ghost predicate Transparent(start: Disk, all: seq<Rec>, disk: Disk, buf: seq<Rec>, kind: Kind) {
    forall d: int :: View(disk, buf, File(d, kind)) == View(start, all, File(d, kind))
  }

  lemma ViewAppend(disk: Disk, buf: seq<Rec>, r: Rec, f: File)
    ensures View(disk, buf + [r], f) == View(disk, buf, f) + (if DayOf(r) == f.day then [r] else [])
  {
    OfDaySnoc(buf, r, f.day);
  }

  lemma TransparentAppend(start: Disk, all: seq<Rec>, disk: Disk, buf: seq<Rec>, kind: Kind, r: Rec)
    requires Transparent(start, all, disk, buf, kind)
    ensures Transparent(start, all + [r], disk, buf + [r], kind)
  {
    forall d: int ensures View(disk, buf + [r], File(d, kind)) == View(start, all + [r], File(d, kind)) {
      ViewAppend(disk, buf, r, File(d, kind));
      ViewAppend(start, all, r, File(d, kind));
    }
  }

  /** The buffer of one kind has been written out and nothing else touched. */
  ghost predicate Written(disk: Disk, disk': Disk, buf: seq<Rec>, kind: Kind) {
    && (forall d: int :: Content(disk', File(d, kind)) == View(disk, buf, File(d, kind)))
    && (forall f: File :: f.kind != kind ==> Content(disk', f) == Content(disk, f))
  }

  lemma WrittenTransparent(start: Disk, all: seq<Rec>, disk: Disk, disk': Disk, buf: seq<Rec>, kind: Kind)
    requires Transparent(start, all, disk, buf, kind) && Written(disk, disk', buf, kind)
    ensures Transparent(start, all, disk', [], kind)
  {
    forall d: int ensures View(disk', [], File(d, kind)) == View(start, all, File(d, kind)) {
      assert Content(disk', File(d, kind)) == View(disk, buf, File(d, kind));
    }
  }

  lemma OtherTransparent(start: Disk, all: seq<Rec>, disk: Disk, disk': Disk, buf: seq<Rec>, other: seq<Rec>,
    kind: Kind, kind': Kind)
    requires Transparent(start, all, disk, other, kind') && Written(disk, disk', buf, kind) && kind != kind'
    ensures Transparent(start, all, disk', other, kind')
  {
    forall d: int ensures View(disk', other, File(d, kind')) == View(start, all, File(d, kind')) {
      assert Content(disk', File(d, kind')) == Content(disk, File(d, kind'));
      assert View(disk, other, File(d, kind')) == View(start, all, File(d, kind'));
    }
  }

  /** Writing out first the decodes, then the candidates. */
  lemma FlushTransparent(
    start: Disk, decodes: seq<Rec>, candidates: seq<Rec>, d0: Disk, d1: Disk, d2: Disk, decodeBuf: seq<Rec>,
    candidateBuf: seq<Rec>)
    requires Transparent(start, decodes, d0, decodeBuf, Decodes)
             && Transparent(start, candidates, d0, candidateBuf, Candidates)
    requires Written(d0, d1, decodeBuf, Decodes) && Written(d1, d2, candidateBuf, Candidates)
    ensures Transparent(start, decodes, d2, [], Decodes) && Transparent(start, candidates, d2, [], Candidates)
  {
    WrittenTransparent(start, decodes, d0, d1, decodeBuf, Decodes);
    OtherTransparent(start, candidates, d0, d1, decodeBuf, candidateBuf, Decodes, Candidates);
    WrittenTransparent(start, candidates, d1, d2, candidateBuf, Candidates);
    OtherTransparent(start, decodes, d1, d2, candidateBuf, [], Candidates, Decodes);
  }

  /** One more record in the groups. */
  function Grouping(byDay: map<int, seq<Rec>>, r: Rec): map<int, seq<Rec>> {
    var d := DayOf(r);
    byDay[d := (if d in byDay then byDay[d] else []) + [r]]
  }

  function Groups(buf: seq<Rec>): map<int, seq<Rec>> {
    if buf == [] then map[] else Grouping(Groups(buf[..|buf| - 1]), buf[|buf| - 1])
  }

  /** The days met, each once, in the order they were first met. */
  function DaysOf(buf: seq<Rec>): seq<int> {
    if buf == [] then []
    else
      var days, d := DaysOf(buf[..|buf| - 1]), DayOf(buf[|buf| - 1]);
      if d in days then days else days + [d]
  }

  predicate Distinct(days: seq<int>) {
    forall i, j :: 0 <= i < j < |days| ==> days[i] != days[j]
  }

  /** Exactly the days met have a group, and it holds that day's records in order. */
  lemma {:induction false} GroupsAreDays(buf: seq<Rec>, d: int)
    ensures d in Groups(buf) <==> d in DaysOf(buf)
    ensures (if d in Groups(buf) then Groups(buf)[d] else []) == OfDay(buf, d)
  {
    if buf != [] { GroupsAreDays(buf[..|buf| - 1], d); }
  }

  lemma {:induction false} DaysAreDistinct(buf: seq<Rec>)
    ensures Distinct(DaysOf(buf))
  {
    if buf != [] { DaysAreDistinct(buf[..|buf| - 1]); }
  }

  method GroupByDay(buf: seq<Rec>) returns (byDay: map<int, seq<Rec>>, days: seq<int>)
    ensures byDay == Groups(buf) && days == DaysOf(buf)
  {
    byDay, days := map[], [];
    for i := 0 to |buf|
      invariant byDay == Groups(buf[..i]) && days == DaysOf(buf[..i])
    {
      assert buf[..i + 1][..i] == buf[..i];
      GroupsAreDays(buf[..i], DayOf(buf[i]));
      if DayOf(buf[i]) !in byDay { days := days + [DayOf(buf[i])]; }
      byDay := Grouping(byDay, buf[i]);
    }
    assert buf[..|buf|] == buf;
  }

  /** The disk after the groups of `days` have been appended to their files. */
  function Putting(disk: Disk, byDay: map<int, seq<Rec>>, days: seq<int>, kind: Kind): Disk
    requires forall d :: d in days ==> d in byDay
  {
    if days == [] then disk
    else
      var d := days[|days| - 1];
      AppendTo(Putting(disk, byDay, days[..|days| - 1], kind), File(d, kind), byDay[d])
  }

  lemma {:induction false} PuttingContent(disk: Disk, byDay: map<int, seq<Rec>>, days: seq<int>, kind: Kind, f: File)
    requires (forall d :: d in days ==> d in byDay) && Distinct(days)
    ensures Content(Putting(disk, byDay, days, kind), f)
         == Content(disk, f) + if f.kind == kind && f.day in days then byDay[f.day] else []
  {
    if days != [] {
      var front, d := days[..|days| - 1], days[|days| - 1];
      PuttingContent(disk, byDay, front, kind, f);
      LastIsNew(days);
      assert f.day in days <==> f.day in front || f.day == d;
    }
  }

  lemma LastIsNew(days: seq<int>)
    requires Distinct(days) && days != []
    ensures days[|days| - 1] !in days[..|days| - 1] && Distinct(days[..|days| - 1])
    ensures days == days[..|days| - 1] + [days[|days| - 1]]
  {}

  method WriteGroups(disk: Disk, byDay: map<int, seq<Rec>>, days: seq<int>, kind: Kind) returns (out: Disk)
    requires forall d :: d in days ==> d in byDay
    ensures out == Putting(disk, byDay, days, kind)
  {
    out := disk;
    for i := 0 to |days|
      invariant out == Putting(disk, byDay, days[..i], kind)
    {
      assert days[..i + 1][..i] == days[..i];
      out := AppendTo(out, File(days[i], kind), byDay[days[i]]);
    }
    assert days[..|days|] == days;
  }

  lemma AllWritten(disk: Disk, buf: seq<Rec>, kind: Kind)
    requires forall d :: d in DaysOf(buf) ==> d in Groups(buf)
    ensures Written(disk, Putting(disk, Groups(buf), DaysOf(buf), kind), buf, kind)
  {
    var out := Putting(disk, Groups(buf), DaysOf(buf), kind);
    DaysAreDistinct(buf);
    forall d: int ensures Content(out, File(d, kind)) == View(disk, buf, File(d, kind)) {
      GroupsAreDays(buf, d);
      PuttingContent(disk, Groups(buf), DaysOf(buf), kind, File(d, kind));
    }
    forall f: File | f.kind != kind ensures Content(out, f) == Content(disk, f) {
      PuttingContent(disk, Groups(buf), DaysOf(buf), kind, f);
    }
  }

  class DailyBufferedWriter {
    var disk: Disk
    var decodeBuf: seq<Rec>
    var candidateBuf: seq<Rec>
    var lastFlush: real
    ghost const start: Disk            // the files before the first append
    ghost var allDecodes: seq<Rec>     // everything ever appended
    ghost var allCandidates: seq<Rec>

    ghost predicate Valid()
      reads this
    {
      && Transparent(start, allDecodes, disk, decodeBuf, Decodes)
      && Transparent(start, allCandidates, disk, candidateBuf, Candidates)
    }

    constructor (files: Disk, now: real)
      ensures Valid() && start == disk == files && decodeBuf == candidateBuf == allDecodes == allCandidates == []
    {
      start, disk := files, files;
      decodeBuf, candidateBuf, lastFlush := [], [], now;
      allDecodes, allCandidates := [], [];
    }

    method AppendDecode(r: Rec, now: real)
      requires Valid()
      modifies this
      ensures Valid() && allDecodes == old(allDecodes) + [r] && allCandidates == old(allCandidates)
      ensures lastFlush == if now - old(lastFlush) >= 300.0 then now else old(lastFlush)
      ensures if now - old(lastFlush) >= 300.0 then decodeBuf == candidateBuf == []
              else disk == old(disk) && decodeBuf == old(decodeBuf) + [r] && candidateBuf == old(candidateBuf)
    {
      TransparentAppend(start, allDecodes, disk, decodeBuf, Decodes, r);
      decodeBuf := decodeBuf + [r];
      allDecodes := allDecodes + [r];
      MaybeFlush(now);
    }

    method AppendCandidate(r: Rec, now: real)
      requires Valid()
      modifies this
      ensures Valid() && allCandidates == old(allCandidates) + [r] && allDecodes == old(allDecodes)
      ensures lastFlush == if now - old(lastFlush) >= 300.0 then now else old(lastFlush)
      ensures if now - old(lastFlush) >= 300.0 then decodeBuf == candidateBuf == []
              else disk == old(disk) && candidateBuf == old(candidateBuf) + [r] && decodeBuf == old(decodeBuf)
    {
      TransparentAppend(start, allCandidates, disk, candidateBuf, Candidates, r);
      candidateBuf := candidateBuf + [r];
      allCandidates := allCandidates + [r];
      MaybeFlush(now);
    }

    /** Also the timer's tick. */
    method MaybeFlush(now: real)
      requires Valid()
      modifies this`disk, this`decodeBuf, this`candidateBuf, this`lastFlush
      ensures Valid() && lastFlush == if now - old(lastFlush) >= 300.0 then now else old(lastFlush)
      ensures if now - old(lastFlush) >= 300.0 then decodeBuf == candidateBuf == []
              else disk == old(disk) && decodeBuf == old(decodeBuf) && candidateBuf == old(candidateBuf)
    {
      if now - lastFlush >= FLUSH_INTERVAL { Flush(now); }
    }

    /** Everything pending goes to disk: each file now holds what a reader would
        have seen with the pending records. */
    method Flush(now: real)
      requires Valid()
      modifies this`disk, this`decodeBuf, this`candidateBuf, this`lastFlush
      ensures Valid() && decodeBuf == candidateBuf == [] && lastFlush == now
    {
      lastFlush := now;
      ghost var d0 := disk;
      WriteOut(decodeBuf, Decodes);
      ghost var d1 := disk;
      WriteOut(candidateBuf, Candidates);
      FlushTransparent(start, allDecodes, allCandidates, d0, d1, disk, decodeBuf, candidateBuf);
      decodeBuf, candidateBuf := [], [];
    }

    /** Groups one buffer by day and appends each group to its file. */
    method WriteOut(buf: seq<Rec>, kind: Kind)
      modifies this`disk
      ensures Written(old(disk), disk, buf, kind)
    {
      var byDay, days := GroupByDay(buf);
      forall d | d in days ensures d in byDay { GroupsAreDays(buf, d); }
      AllWritten(disk, buf, kind);
      disk := WriteGroups(disk, byDay, days, kind);
    }

    method PendingCount() returns (n: nat)
      ensures n == |decodeBuf| + |candidateBuf|
    {
      n := |decodeBuf| + |candidateBuf|;
    }
  }

  // --------------------------------------------------------- following a file

  /** A line of a file: its record, unless it is no JSON, and its length with the line end. */
  datatype Line = Line(record: Option<Rec>, bytes: nat)

  predicate Lines(ls: seq<Line>) { forall i :: 0 <= i < |ls| ==> ls[i].bytes > 0 }

  function Size(ls: seq<Line>): nat {
    if ls == [] then 0 else Size(ls[..|ls| - 1]) + ls[|ls| - 1].bytes
  }

  /** The records of lines starting at or after an offset; a line cut by it is unreadable. */
  function RecordsFrom(ls: seq<Line>, offset: nat): seq<Rec> {
    if ls == [] || Size(ls[..|ls| - 1]) < offset then []
    else
      var last := ls[|ls| - 1];
      RecordsFrom(ls[..|ls| - 1], offset) + (if last.record.Some? then [last.record.value] else [])
  }

  function Records(ls: seq<Line>): seq<Rec> { RecordsFrom(ls, 0) }

  /** The records in a stretch of lines, each once, in order, and nothing else. */
  function RecordList(ls: seq<Line>): seq<Rec> {
    if ls == [] then [] else (if ls[0].record.Some? then [ls[0].record.value] else []) + RecordList(ls[1..])
  }

  /** One line holds its record once, or nothing. */
  lemma RecordsOfOne(l: Line)
    ensures Records([l]) == if l.record.Some? then [l.record.value] else []
    ensures RecordList([l]) == Records([l]) && Size([l]) == l.bytes
  {
    assert [l][..0] == [] && [l][1..] == [];
    assert Size([]) == 0 && RecordsFrom([], 0) == [] && RecordList([]) == [];
  }

  /** Reading a whole file from either end gives the same records. */
  lemma {:induction false} RecordsAreListed(ls: seq<Line>)
    ensures Records(ls) == RecordList(ls)
  {
    if ls != [] {
      assert ls == [ls[0]] + ls[1..];
      RecordsJoin([ls[0]], ls[1..]);
      RecordsOfOne(ls[0]);
      RecordsAreListed(ls[1..]);
    }
  }

  lemma {:induction false} SizeAppend(a: seq<Line>, b: seq<Line>)
    ensures Size(a + b) == Size(a) + Size(b)
  {
    if b == [] {
      assert a + b == a;
    } else {
      assert (a + b)[..|a + b| - 1] == a + b[..|b| - 1];
      SizeAppend(a, b[..|b| - 1]);
    }
  }

  lemma {:induction false} NothingFromEnd(a: seq<Line>)
    requires Lines(a)
    ensures RecordsFrom(a, Size(a)) == []
  {}

  /** Read from the end of a prefix, a file gives exactly the records after it. */
  lemma {:induction false} RecordsAfter(a: seq<Line>, b: seq<Line>)
    requires Lines(a)
    ensures RecordsFrom(a + b, Size(a)) == Records(b) == RecordList(b)
  {
    RecordsAreListed(b);
    if b == [] {
      assert a + b == a;
      NothingFromEnd(a);
    } else {
      var m := |b| - 1;
      assert (a + b)[..|a + b| - 1] == a + b[..m];
      SizeAppend(a, b[..m]);
      RecordsAfter(a, b[..m]);
    }
  }

  lemma {:induction false} RecordsJoin(a: seq<Line>, b: seq<Line>)
    ensures Records(a + b) == Records(a) + Records(b)
  {
    if b == [] {
      assert a + b == a;
    } else {
      assert (a + b)[..|a + b| - 1] == a + b[..|b| - 1];
      RecordsJoin(a, b[..|b| - 1]);
    }
  }

  lemma RecordListJoin(a: seq<Line>, b: seq<Line>)
    ensures RecordList(a + b) == RecordList(a) + RecordList(b)
  {
    RecordsAreListed(a);
    RecordsAreListed(b);
    RecordsAreListed(a + b);
    RecordsJoin(a, b);
  }

  predicate Grows(files: seq<seq<Line>>) {
    && (forall i :: 0 <= i < |files| ==> Lines(files[i]))
    && (forall i :: 0 < i < |files| ==> files[i - 1] <= files[i])
  }

  class JsonlTail {
    var offset: nat

    /** Opening a tail, or pointing it at another file, skips what is there. */
    constructor (file: seq<Line>)
      ensures offset == Size(file)
    {
      offset := Size(file);
    }

    /** What was written since the last read, if the file only grew; the whole
        file if it became shorter. */
    method ReadNew(file: seq<Line>) returns (out: seq<Rec>)
      requires Lines(file)
      modifies this
      ensures offset == Size(file)
      ensures Size(file) < old(offset) ==> out == RecordList(file)
      ensures Size(file) == old(offset) ==> out == []
      ensures forall a, b :: file == a + b && Size(a) == old(offset) ==> out == RecordList(b)
    {
      var size := Size(file);
      if size < offset { offset := 0; }
      forall a: seq<Line>, b: seq<Line> | file == a + b && Size(a) == old(offset)
        ensures RecordsFrom(file, old(offset)) == RecordList(b)
      {
        assert Lines(a) by { forall i | 0 <= i < |a| ensures a[i].bytes > 0 { assert a[i] == file[i]; } }
        RecordsAfter(a, b);
        RecordsAreListed(b);
      }
      RecordsAreListed(file);
      forall a: seq<Line>, b: seq<Line> | file == a + b ensures size == Size(a) + Size(b) { SizeAppend(a, b); }
      NothingFromEnd(file);
      if size <= offset {
        out := [];
        if size == 0 { EmptyFile(file); }
        return;
      }
      out := RecordsFrom(file, offset);
      offset := size;
    }

    /** Following a file that only grows returns each record written after the
        tail was opened exactly once, in order. */
    method Follow(files: seq<seq<Line>>) returns (out: seq<Rec>)
      requires files != [] && Grows(files) && offset == Size(files[0])
      modifies this
      ensures files[0] <= files[|files| - 1]
      ensures out == RecordList(files[|files| - 1][|files[0]|..])
    {
      out := [];
      var first := files[0];
      assert first[|first|..] == [];
      for i := 1 to |files|
        invariant first <= files[i - 1] && offset == Size(files[i - 1])
        invariant out == RecordList(files[i - 1][|first|..])
      {
        assert files[i - 1] <= files[i];
        var seen := files[i - 1];
        var news := files[i][|seen|..];
        assert files[i] == seen + news;
        var more := ReadNew(files[i]);
        RecordListJoin(seen[|first|..], news);
        assert files[i][|first|..] == seen[|first|..] + news;
        out := out + more;
      }
    }
  }

  lemma {:induction false} EmptyFile(file: seq<Line>)
    requires Lines(file) && Size(file) == 0
    ensures file == []
  {}
}

/** The session's station table and its hour and cycle buckets: running totals,
    and the plain account of the decodes they must agree with. */
module SessionStats {
  import opened Base

  const MAX_DECODES_IN_RAM: nat := 10000
  const SAMPLE_MAX: nat := 64

  /** What the lookups say of a call: its grid square, if any, and whether that
      square has a position. */
  datatype Place = Place(grid: string, located: bool)

  const NOWHERE := Place("", false)

  /** A decode with the callsigns its message names (perhaps one twice), the keys of
      the hour and cycle it falls in, and the places known when it arrives. */
  datatype Decode = Decode(calls: seq<string>, snr: int, kind: string, time: real, hour: string, cycle: string,
                           places: map<string, Place>)

  function PlaceOf(d: Decode, call: string): Place { if call in d.places then d.places[call] else NOWHERE }

  // ------------------------------------------------------------ running state

  datatype Station = Station(snr: int, best: int, worst: int, hears: nat, kinds: map<string, nat>,
                             first: real, last: real, grid: string, onMap: bool)

  datatype Running = Running(count: nat, total: int, low: int, high: int)

  datatype Bucket = Bucket(decodes: nat, calls: set<string>, news: nat, snr: Running, samples: seq<int>,
                           kinds: map<string, nat>, candidates: nat, audio: nat, clips: nat)

  type Table = map<string, Station>
  type Buckets = map<string, Bucket>

  const NO_SNR := Running(0, 0, 99, -99)
  const NEW_BUCKET := Bucket(0, {}, 0, NO_SNR, [], map[], 0, 0, 0)

  datatype Session = Session(stations: Table, cycles: Buckets, hours: Buckets, decodes: seq<Decode>)

  const EMPTY := Session(map[], map[], map[], [])

  function CountOf(m: map<string, nat>, k: string): nat { if k in m then m[k] else 0 }

  function Tally(m: map<string, nat>, k: string): map<string, nat> { m[k := CountOf(m, k) + 1] }

  function Met(d: Decode, call: string): Station {
    var p := PlaceOf(d, call);
    Station(d.snr, d.snr, d.snr, 1, map[d.kind := 1], d.time, d.time, p.grid, p.grid != "" && p.located)
  }

  function HeardAgain(s: Station, d: Decode, call: string): Station {
    var p := PlaceOf(d, call);
    var s1 := s.(last := d.time, hears := s.hears + 1, best := Max(s.best, d.snr), worst := Min(s.worst, d.snr),
                 kinds := Tally(s.kinds, d.kind), snr := if d.snr > s.snr then d.snr else s.snr);
    if p.grid != "" && s.grid == "" then s1.(grid := p.grid, onMap := p.located) else s1
  }

  function NoteCall(t: Table, d: Decode, call: string): Table {
    t[call := if call in t then HeardAgain(t[call], d, call) else Met(d, call)]
  }

  function NoteCalls(t: Table, d: Decode, calls: seq<string>): Table {
    if calls == [] then t else NoteCall(NoteCalls(t, d, calls[..|calls| - 1]), d, calls[|calls| - 1])
  }

  /** The callsigns met for the first time, in the order they are named. */
  function NewCalls(t: Table, d: Decode, calls: seq<string>): seq<string> {
    if calls == [] then []
    else
      var before, call := calls[..|calls| - 1], calls[|calls| - 1];
      NewCalls(t, d, before) + if call in NoteCalls(t, d, before) then [] else [call]
  }

  /** Noting the call puts its station on the map: a new station with a position, or
      one that had no grid so far. */
  predicate MapsNow(t: Table, d: Decode, call: string) {
    var p := PlaceOf(d, call);
    p.grid != "" && p.located && (call in t ==> t[call].grid == "")
  }

  /** The callsigns newly on the map, in the order they are named. */
  function NewOnMap(t: Table, d: Decode, calls: seq<string>): seq<string> {
    if calls == [] then []
    else
      var before, call := calls[..|calls| - 1], calls[|calls| - 1];
      NewOnMap(t, d, before) + if MapsNow(NoteCalls(t, d, before), d, call) then [call] else []
  }

  function NoteSnr(r: Running, snr: int): Running {
    Running(r.count + 1, r.total + snr, Min(r.low, snr), Max(r.high, snr))
  }

  function Fetch(bs: Buckets, key: string): Bucket { if key in bs then bs[key] else NEW_BUCKET }

  function Named(d: Decode): set<string> { set c | c in d.calls }

  function NoteDecode(b: Bucket, d: Decode, news: nat): Bucket {
    b.(decodes := b.decodes + 1, calls := b.calls + Named(d), news := b.news + news,
       snr := NoteSnr(b.snr, d.snr), kinds := Tally(b.kinds, d.kind),
       samples := if |b.samples| < SAMPLE_MAX then b.samples + [d.snr] else b.samples)
  }

  function NoteAudio(b: Bucket, clipped: bool): Bucket {
    b.(audio := b.audio + 1, clips := b.clips + if clipped then 1 else 0)
  }

  datatype Event =
    | Decoded(d: Decode)
    | Searched(cycle: string, candidates: nat)
    | Audio(hour: string, inCycle: string, clipFraction: real)
    | Reset

  function Newest<T>(s: seq<T>, n: nat): seq<T> { if |s| > n then s[|s| - n..] else s }

  function Apply(s: Session, e: Event): Session {
    match e
    case Decoded(d) =>
      var news := |NewCalls(s.stations, d, d.calls)|;
      Session(NoteCalls(s.stations, d, d.calls),
              s.cycles[d.cycle := NoteDecode(Fetch(s.cycles, d.cycle), d, news)],
              s.hours[d.hour := NoteDecode(Fetch(s.hours, d.hour), d, news)],
              Newest(s.decodes + [d], MAX_DECODES_IN_RAM))
    case Searched(k, n) =>
      var b := Fetch(s.cycles, k);
      s.(cycles := s.cycles[k := b.(candidates := b.candidates + n)])
    case Audio(h, k, clip) =>
      s.(hours := s.hours[h := NoteAudio(Fetch(s.hours, h), clip > 0.01)],
         cycles := if k in s.cycles then s.cycles[k := NoteAudio(s.cycles[k], clip > 0.01)] else s.cycles)
    case Reset => EMPTY
  }

  function After(es: seq<Event>): Session {
    if es == [] then EMPTY else Apply(After(es[..|es| - 1]), es[|es| - 1])
  }

  /** The decodes since the last reset. */
  function Decodes(es: seq<Event>): seq<Decode> {
    if es == [] then []
    else
      var ds, e := Decodes(es[..|es| - 1]), es[|es| - 1];
      if e.Reset? then [] else if e.Decoded? then ds + [e.d] else ds
  }

  // ----------------------------------------------------- the table of stations

  /** One copy of `d` for each time it names `call`. */
  function Mentions(d: Decode, calls: seq<string>, call: string): (r: seq<Decode>)
    ensures |r| == multiset(calls)[call]
    ensures forall i :: 0 <= i < |r| ==> r[i] == d
  {
    if calls == [] then []
    else
      assert calls == calls[..|calls| - 1] + [calls[|calls| - 1]];
      Mentions(d, calls[..|calls| - 1], call) + if calls[|calls| - 1] == call then [d] else []
  }

  /** Everything heard of one call, in order. */
  function Reports(ds: seq<Decode>, call: string): seq<Decode> {
    if ds == [] then []
    else Reports(ds[..|ds| - 1], call) + Mentions(ds[|ds| - 1], ds[|ds| - 1].calls, call)
  }

  function OfKind(ds: seq<Decode>, kind: string): nat {
    if ds == [] then 0 else OfKind(ds[..|ds| - 1], kind) + if ds[|ds| - 1].kind == kind then 1 else 0
  }

  ghost function Total<V>(m: map<string, V>, f: V -> int): int {
    if m == map[] then 0
    else
      var k :| k in m;
      f(m[k]) + Total(m - {k}, f)
  }

  /** The total does not depend on the order of summation. */
  lemma {:induction false} TotalSplit<V>(m: map<string, V>, f: V -> int, k: string)
    requires k in m
    ensures Total(m, f) == f(m[k]) + Total(m - {k}, f)
    decreases |m|
  {
    var j :| j in m && Total(m, f) == f(m[j]) + Total(m - {j}, f);
    if j != k {
      TotalSplit(m - {j}, f, k);
      TotalSplit(m - {k}, f, j);
      assert m - {j} - {k} == m - {k} - {j};
    }
  }

  lemma TotalUpdate<V>(m: map<string, V>, f: V -> int, k: string, v: V)
    ensures Total(m[k := v], f) == Total(m, f) + f(v) - if k in m then f(m[k]) else 0
  {
    TotalSplit(m[k := v], f, k);
    assert m[k := v] - {k} == m - {k};
    if k in m { TotalSplit(m, f, k); } else { assert m - {k} == m; }
  }

  const SAME: nat -> int := (n: nat) => n

  /** Tallies are those of the kinds of the decodes in `rs`, none missing. */
  ghost predicate Tallied(kinds: map<string, nat>, rs: seq<Decode>) {
    (forall k :: CountOf(kinds, k) == OfKind(rs, k)) && Total<nat>(kinds, SAME) == |rs|
  }

  lemma TallyOneMore(kinds: map<string, nat>, rs: seq<Decode>, d: Decode)
    requires Tallied(kinds, rs)
    ensures Tallied(Tally(kinds, d.kind), rs + [d])
  {
    assert (rs + [d])[..|rs|] == rs;
    TotalUpdate<nat>(kinds, SAME, d.kind, CountOf(kinds, d.kind) + 1);
    forall k ensures CountOf(Tally(kinds, d.kind), k) == OfKind(rs + [d], k) {
      assert CountOf(kinds, k) == OfKind(rs, k);
    }
  }

  predicate Strongest(x: int, rs: seq<Decode>) {
    (exists i :: 0 <= i < |rs| && rs[i].snr == x) && (forall i :: 0 <= i < |rs| ==> rs[i].snr <= x)
  }

  predicate Weakest(x: int, rs: seq<Decode>) {
    (exists i :: 0 <= i < |rs| && rs[i].snr == x) && (forall i :: 0 <= i < |rs| ==> x <= rs[i].snr)
  }

  /** The place at the first report that had a grid for the call. */
  function FirstPlace(rs: seq<Decode>, call: string): Place {
    if rs == [] then NOWHERE
    else
      var p := FirstPlace(rs[..|rs| - 1], call);
      if p.grid != "" then p else PlaceOf(rs[|rs| - 1], call)
  }

  predicate Placed(s: Station, rs: seq<Decode>, call: string) {
    var p := FirstPlace(rs, call);
    s.grid == p.grid && s.onMap == (p.grid != "" && p.located)
  }

  /** A table entry says exactly what the reports say. */
  ghost predicate Summarises(s: Station, rs: seq<Decode>, call: string) {
    && rs != [] && s.hears == |rs| && s.first == rs[0].time && s.last == rs[|rs| - 1].time
    && s.snr == s.best && Strongest(s.best, rs) && Weakest(s.worst, rs) && Tallied(s.kinds, rs) && Placed(s, rs, call)
  }

  lemma MetSummarises(d: Decode, call: string)
    ensures Summarises(Met(d, call), [d], call)
  {
    assert [d][..0] == [];
    assert Tallied(map[], []);
    TallyOneMore(map[], [], d);
    assert Tally(map[], d.kind) == map[d.kind := 1];
    assert [] + [d] == [d] && [d][0].snr == d.snr;
  }

  lemma HeardAgainSummarises(s: Station, rs: seq<Decode>, d: Decode, call: string)
    requires Summarises(s, rs, call)
    ensures Summarises(HeardAgain(s, d, call), rs + [d], call)
  {
    assert (rs + [d])[..|rs|] == rs;
    TallyOneMore(s.kinds, rs, d);
    var q := rs + [d];
    assert q[|rs|].snr == d.snr;
    var i :| 0 <= i < |rs| && rs[i].snr == s.best;
    var j :| 0 <= j < |rs| && rs[j].snr == s.worst;
    assert q[i].snr == s.best && q[j].snr == s.worst;
    var b, w := HeardAgain(s, d, call).best, HeardAgain(s, d, call).worst;
    assert Strongest(b, q) by { assert q[if d.snr > s.best then |rs| else i].snr == b; }
    assert Weakest(w, q) by { assert q[if d.snr < s.worst then |rs| else j].snr == w; }
  }

  function Entry(t: Table, call: string): Option<Station> { if call in t then Some(t[call]) else None }

  function OneMore(e: Option<Station>, call: string, d: Decode): Option<Station> {
    Some(if e.Some? then HeardAgain(e.value, d, call) else Met(d, call))
  }

  /** An entry after more reports. */
  function Updated(e: Option<Station>, call: string, more: seq<Decode>): Option<Station> {
    if more == [] then e else OneMore(Updated(e, call, more[..|more| - 1]), call, more[|more| - 1])
  }

  lemma MentionsMore(d: Decode, calls: seq<string>, call: string)
    requires calls != []
    ensures var before := Mentions(d, calls[..|calls| - 1], call);
            Mentions(d, calls, call) == if calls[|calls| - 1] == call then before + [d] else before
  {}

  lemma UpdatedMore(e: Option<Station>, call: string, more: seq<Decode>, d: Decode)
    ensures Updated(e, call, more + [d]) == OneMore(Updated(e, call, more), call, d)
  {
    assert (more + [d])[..|more|] == more;
  }

  lemma EntryMore(t: Table, d: Decode, named: string, call: string)
    ensures Entry(NoteCall(t, d, named), call) == if named == call then OneMore(Entry(t, call), call, d)
            else Entry(t, call)
  {}

  /** Noting a decode updates a call's entry once for each time it is named. */
  lemma {:induction false} NoteCallsUpdates(t: Table, d: Decode, calls: seq<string>, call: string)
    ensures Entry(NoteCalls(t, d, calls), call) == Updated(Entry(t, call), call, Mentions(d, calls, call))
  {
    if calls != [] {
      var before, named := calls[..|calls| - 1], calls[|calls| - 1];
      NoteCallsUpdates(t, d, before, call);
      MentionsMore(d, calls, call);
      UpdatedMore(Entry(t, call), call, Mentions(d, before, call), d);
      EntryMore(NoteCalls(t, d, before), d, named, call);
      assert NoteCalls(t, d, calls) == NoteCall(NoteCalls(t, d, before), d, named);
    }
  }

  /** The entry for `call`, if any, given the reports of it. */
  ghost predicate EntryOf(e: Option<Station>, call: string, rs: seq<Decode>) {
    (e.Some? <==> rs != []) && (e.Some? ==> Summarises(e.value, rs, call))
  }

  lemma {:induction false} UpdatedSummarises(e: Option<Station>, call: string, rs: seq<Decode>, more: seq<Decode>)
    requires EntryOf(e, call, rs)
    ensures EntryOf(Updated(e, call, more), call, rs + more)
  {
    if more == [] {
      assert rs + more == rs;
    } else {
      var front := more[..|more| - 1];
      UpdatedSummarises(e, call, rs, front);
      assert rs + more == rs + front + [more[|more| - 1]];
      OneMoreSummarises(Updated(e, call, front), call, rs + front, more[|more| - 1]);
    }
  }

  lemma OneMoreSummarises(e: Option<Station>, call: string, rs: seq<Decode>, d: Decode)
    requires EntryOf(e, call, rs)
    ensures Summarises(OneMore(e, call, d).value, rs + [d], call)
  {
    if e.Some? { HeardAgainSummarises(e.value, rs, d, call); } else { MetSummarises(d, call); assert rs + [d] == [d]; }
  }

  /** Whatever happened since the last reset, a call is in the table exactly when
      some decode named it, and its entry has the count, strongest and weakest
      report, message kinds and times of exactly the decodes naming it. */
  lemma {:induction false} StationTableIsExact(es: seq<Event>, call: string)
    ensures EntryOf(Entry(After(es).stations, call), call, Reports(Decodes(es), call))
  {
    if es != [] {
      var before, e := es[..|es| - 1], es[|es| - 1];
      StationTableIsExact(before, call);
      if e.Decoded? {
        var ds := Decodes(before);
        NoteCallsUpdates(After(before).stations, e.d, e.d.calls, call);
        UpdatedSummarises(Entry(After(before).stations, call), call, Reports(ds, call), Mentions(e.d, e.d.calls, call));
        assert (ds + [e.d])[..|ds|] == ds;
      }
    }
  }

  // ---------------------------------------------------------------- first met

  lemma {:induction false} TableGains(t: Table, d: Decode, calls: seq<string>, c: string)
    ensures c in NoteCalls(t, d, calls) <==> c in t || c in calls
  {
    if calls != [] {
      TableGains(t, d, calls[..|calls| - 1], c);
      assert calls == calls[..|calls| - 1] + [calls[|calls| - 1]];
    }
  }

  lemma MapGrows(t: Table, c: string, s: Station)
    ensures |t[c := s]| == |t| + if c in t then 0 else 1
  {
    assert t[c := s].Keys == t.Keys + {c};
    if c in t { assert t.Keys + {c} == t.Keys; }
  }

  /** The new callsigns are exactly those the table gains, each listed once. */
  lemma {:induction false} NewCallsAreTheGain(t: Table, d: Decode, calls: seq<string>)
    ensures forall c :: c in NewCalls(t, d, calls) <==> c in NoteCalls(t, d, calls) && c !in t
    ensures |NewCalls(t, d, calls)| == |NoteCalls(t, d, calls)| - |t|
  {
    if calls != [] {
      var before, call := calls[..|calls| - 1], calls[|calls| - 1];
      var t1 := NoteCalls(t, d, before);
      NewCallsAreTheGain(t, d, before);
      TableGains(t, d, before, call);
      MapGrows(t1, call, NoteCalls(t, d, calls)[call]);
    }
  }

  // ------------------------------------------------------------------ the map

  function Mapped(t: Table): set<string> { set c | c in t && t[c].onMap }

  /** A station on the map has a grid, so no later report moves or removes it. */
  predicate MapOk(t: Table) { forall c :: c in t && t[c].onMap ==> t[c].grid != "" }

  lemma NoteCallMaps(t: Table, d: Decode, call: string)
    requires MapOk(t)
    ensures var t' := NoteCall(t, d, call);
            MapOk(t') && Mapped(t') == (if MapsNow(t, d, call) then Mapped(t) + {call} else Mapped(t))
    ensures MapsNow(t, d, call) ==> call !in Mapped(t)
  {}

  /** The calls newly on the map are exactly those the map gains, each listed once,
      and the map loses none. */
  lemma {:induction false} NewOnMapIsTheGain(t: Table, d: Decode, calls: seq<string>)
    requires MapOk(t)
    ensures var t', gain := NoteCalls(t, d, calls), NewOnMap(t, d, calls);
            && MapOk(t') && |Mapped(t')| == |Mapped(t)| + |gain| && Mapped(t) <= Mapped(t')
            && (forall c :: c in gain <==> c in Mapped(t') && c !in Mapped(t))
  {
    if calls != [] {
      var before, call := calls[..|calls| - 1], calls[|calls| - 1];
      NewOnMapIsTheGain(t, d, before);
      MapGainsOne(t, d, before, call);
    }
  }

  lemma MapGainsOne(t: Table, d: Decode, before: seq<string>, call: string)
    requires MapOk(NoteCalls(t, d, before))
    ensures var t1 := NoteCalls(t, d, before);
            var t2 := NoteCall(t1, d, call);
            && MapOk(t2) && Mapped(t1) <= Mapped(t2)
            && (if MapsNow(t1, d, call) then
                  call !in Mapped(t1) && Mapped(t2) == Mapped(t1) + {call} && |Mapped(t2)| == |Mapped(t1)| + 1
                else Mapped(t2) == Mapped(t1))
  {
    NoteCallMaps(NoteCalls(t, d, before), d, call);
  }

  /** Calls reported as newly on the map since the last reset. */
  function MapReports(es: seq<Event>): nat {
    if es == [] then 0
    else
      var e, s := es[|es| - 1], After(es[..|es| - 1]);
      if e.Reset? then 0
      else MapReports(es[..|es| - 1]) + if e.Decoded? then |NewOnMap(s.stations, e.d, e.d.calls)| else 0
  }

  /** Every station on the map was reported as newly on it exactly once since the
      last reset, and none was reported that is not. */
  lemma {:induction false} MapIsConserved(es: seq<Event>)
    ensures MapOk(After(es).stations) && |Mapped(After(es).stations)| == MapReports(es)
  {
    if es != [] {
      var e, s := es[|es| - 1], After(es[..|es| - 1]);
      MapIsConserved(es[..|es| - 1]);
      if e.Decoded? { NewOnMapIsTheGain(s.stations, e.d, e.d.calls); }
    }
  }

  // ------------------------------------------------------------- conservation

  const NEWS: Bucket -> int := (b: Bucket) => b.news
  const DECODES: Bucket -> int := (b: Bucket) => b.decodes
  const CANDIDATES: Bucket -> int := (b: Bucket) => b.candidates
  const AUDIO: Bucket -> int := (b: Bucket) => b.audio

  function CandidatesSeen(es: seq<Event>): nat {
    if es == [] then 0
    else
      var e := es[|es| - 1];
      if e.Reset? then 0 else CandidatesSeen(es[..|es| - 1]) + if e.Searched? then e.candidates else 0
  }

  function AudioNoted(es: seq<Event>): nat {
    if es == [] then 0
    else
      var e := es[|es| - 1];
      if e.Reset? then 0 else AudioNoted(es[..|es| - 1]) + if e.Audio? then 1 else 0
  }

  ghost predicate Conserved(bs: Buckets, stations: nat, decodes: nat) {
    Total(bs, NEWS) == stations && Total(bs, DECODES) == decodes
  }

  lemma ConservedByDecode(bs: Buckets, key: string, d: Decode, news: nat, stations: nat, decodes: nat)
    requires Conserved(bs, stations, decodes)
    ensures Conserved(bs[key := NoteDecode(Fetch(bs, key), d, news)], stations + news, decodes + 1)
  {
    TotalUpdate(bs, NEWS, key, NoteDecode(Fetch(bs, key), d, news));
    TotalUpdate(bs, DECODES, key, NoteDecode(Fetch(bs, key), d, news));
  }

  lemma ConservedByOthers(bs: Buckets, key: string, b: Bucket, stations: nat, decodes: nat)
    requires Conserved(bs, stations, decodes)
    requires b.news == Fetch(bs, key).news && b.decodes == Fetch(bs, key).decodes
    ensures Conserved(bs[key := b], stations, decodes)
  {
    TotalUpdate(bs, NEWS, key, b);
    TotalUpdate(bs, DECODES, key, b);
  }

  /** Hours and cycles account for the same session: each sums to the number of
      stations in the table and to the number of decodes since the last reset. */
  lemma {:induction false} SessionIsConserved(es: seq<Event>)
    ensures Conserved(After(es).hours, |After(es).stations|, |Decodes(es)|)
    ensures Conserved(After(es).cycles, |After(es).stations|, |Decodes(es)|)
  {
    if es != [] {
      var e, s := es[|es| - 1], After(es[..|es| - 1]);
      var n, m := |s.stations|, |Decodes(es[..|es| - 1])|;
      SessionIsConserved(es[..|es| - 1]);
      match e
      case Decoded(d) =>
        NewCallsAreTheGain(s.stations, d, d.calls);
        var news := |NewCalls(s.stations, d, d.calls)|;
        ConservedByDecode(s.hours, d.hour, d, news, n, m);
        ConservedByDecode(s.cycles, d.cycle, d, news, n, m);
      case Searched(k, c) =>
        ConservedByOthers(s.cycles, k, Apply(s, e).cycles[k], n, m);
      case Audio(h, k, _) =>
        ConservedByOthers(s.hours, h, Apply(s, e).hours[h], n, m);
        if k in s.cycles { ConservedByOthers(s.cycles, k, Apply(s, e).cycles[k], n, m); }
      case Reset =>
    }
  }

  /** No candidate search and no audio report is lost between buckets either:
      cycles hold all candidates, hours all audio reports. */
  lemma {:induction false} SearchesAreConserved(es: seq<Event>)
    ensures Total(After(es).cycles, CANDIDATES) == CandidatesSeen(es)
    ensures Total(After(es).hours, AUDIO) == AudioNoted(es)
  {
    if es != [] {
      var e, s := es[|es| - 1], After(es[..|es| - 1]);
      var s2 := Apply(s, e);
      SearchesAreConserved(es[..|es| - 1]);
      match e
      case Decoded(d) =>
        TotalUpdate(s.cycles, CANDIDATES, d.cycle, s2.cycles[d.cycle]);
        TotalUpdate(s.hours, AUDIO, d.hour, s2.hours[d.hour]);
      case Searched(k, _) =>
        TotalUpdate(s.cycles, CANDIDATES, k, s2.cycles[k]);
      case Audio(h, k, _) =>
        TotalUpdate(s.hours, AUDIO, h, s2.hours[h]);
        if k in s.cycles { TotalUpdate(s.cycles, CANDIDATES, k, s2.cycles[k]); }
      case Reset =>
    }
  }

  /** Candidates of the searches in cycle k since the last reset. */
  function CandidatesIn(es: seq<Event>, k: string): nat {
    if es == [] || es[|es| - 1].Reset? then 0
    else
      var e := es[|es| - 1];
      CandidatesIn(es[..|es| - 1], k) + if e.Searched? && e.cycle == k then e.candidates else 0
  }

  /** Audio reports of hour h since the last reset, and those with more than one
      sample in a hundred clipped. */
  function AudioIn(es: seq<Event>, h: string): nat {
    if es == [] || es[|es| - 1].Reset? then 0
    else AudioIn(es[..|es| - 1], h) + if es[|es| - 1].Audio? && es[|es| - 1].hour == h then 1 else 0
  }

  function ClippedIn(es: seq<Event>, h: string): nat {
    if es == [] || es[|es| - 1].Reset? then 0
    else
      var e := es[|es| - 1];
      ClippedIn(es[..|es| - 1], h) + if e.Audio? && e.hour == h && 100.0 * e.clipFraction > 1.0 then 1 else 0
  }

  /** Each cycle bucket holds the candidates of its own searches, each hour bucket its
      own audio reports and those of them that clipped. */
  lemma {:induction false} SearchesStayApart(es: seq<Event>, k: string)
    ensures Fetch(After(es).cycles, k).candidates == CandidatesIn(es, k)
    ensures Fetch(After(es).hours, k).audio == AudioIn(es, k) && Fetch(After(es).hours, k).clips == ClippedIn(es, k)
  {
    if es != [] { SearchesStayApart(es[..|es| - 1], k); }
  }

  // --------------------------------------------------------- what a bucket says

  const HOUR: Decode -> string := (d: Decode) => d.hour
  const CYCLE: Decode -> string := (d: Decode) => d.cycle

  function Within(ds: seq<Decode>, key: Decode -> string, k: string): seq<Decode> {
    if ds == [] then []
    else Within(ds[..|ds| - 1], key, k) + if key(ds[|ds| - 1]) == k then [ds[|ds| - 1]] else []
  }

  function SnrTotal(rs: seq<Decode>): int {
    if rs == [] then 0 else SnrTotal(rs[..|rs| - 1]) + rs[|rs| - 1].snr
  }

  /** The running extremes are those of the reports together with 99 and -99. */
  predicate Extremes(r: Running, rs: seq<Decode>) {
    && (forall i :: 0 <= i < |rs| ==> r.low <= rs[i].snr <= r.high) && r.low <= 99 && -99 <= r.high
    && (r.low == 99 || exists i :: 0 <= i < |rs| && rs[i].snr == r.low)
    && (r.high == -99 || exists i :: 0 <= i < |rs| && rs[i].snr == r.high)
  }

  predicate Sampled(samples: seq<int>, rs: seq<Decode>) {
    |samples| == Min(|rs|, 64) && forall i :: 0 <= i < |samples| ==> samples[i] == rs[i].snr
  }

  ghost predicate CallsOf(calls: set<string>, rs: seq<Decode>) {
    forall c :: c in calls <==> exists i :: 0 <= i < |rs| && c in rs[i].calls
  }

  predicate Sums(b: Bucket, rs: seq<Decode>) {
    b.decodes == |rs| && b.snr.count == |rs| && b.snr.total == SnrTotal(rs)
  }

  /** A bucket's counts, calls, totals, extremes, samples and kinds are those of `rs`. */
  ghost predicate Accounts(b: Bucket, rs: seq<Decode>) {
    && Sums(b, rs) && Extremes(b.snr, rs) && Sampled(b.samples, rs) && CallsOf(b.calls, rs) && Tallied(b.kinds, rs)
  }

  lemma ExtremesOneMore(r: Running, rs: seq<Decode>, d: Decode)
    requires Extremes(r, rs)
    ensures Extremes(NoteSnr(r, d.snr), rs + [d])
  {
    var q, r2 := rs + [d], NoteSnr(r, d.snr);
    assert q[|rs|] == d;
    if r2.low == r.low != 99 { var i :| 0 <= i < |rs| && rs[i].snr == r.low; assert q[i].snr == r2.low; }
    if r2.high == r.high != -99 { var i :| 0 <= i < |rs| && rs[i].snr == r.high; assert q[i].snr == r2.high; }
  }

  /** The extremes are true exactly when no report lies beyond the sentinels. */
  lemma ExtremesAreTrue(r: Running, rs: seq<Decode>)
    requires Extremes(r, rs) && rs != []
    ensures Weakest(r.low, rs) <==> exists i :: 0 <= i < |rs| && rs[i].snr <= 99
    ensures Strongest(r.high, rs) <==> exists i :: 0 <= i < |rs| && -99 <= rs[i].snr
  {
    if exists i :: 0 <= i < |rs| && rs[i].snr <= 99 {
      var i :| 0 <= i < |rs| && rs[i].snr <= 99;
      assert r.low == 99 ==> rs[i].snr == 99;
    }
    if exists i :: 0 <= i < |rs| && -99 <= rs[i].snr {
      var i :| 0 <= i < |rs| && -99 <= rs[i].snr;
      assert r.high == -99 ==> rs[i].snr == -99;
    }
  }

  lemma CallsOfOneMore(calls: set<string>, rs: seq<Decode>, d: Decode)
    requires CallsOf(calls, rs)
    ensures CallsOf(calls + Named(d), rs + [d])
  {
    var q, all := rs + [d], calls + Named(d);
    assert q[|rs|] == d;
    forall c ensures c in all <==> exists i :: 0 <= i < |q| && c in q[i].calls {
      if c in calls { var i :| 0 <= i < |rs| && c in rs[i].calls; assert c in q[i].calls; }
      if i :| 0 <= i < |q| && c in q[i].calls { assert i < |rs| ==> c in rs[i].calls; }
    }
  }

  lemma SumsOneMore(b: Bucket, rs: seq<Decode>, d: Decode, news: nat)
    requires Sums(b, rs) && Sampled(b.samples, rs)
    ensures Sums(NoteDecode(b, d, news), rs + [d]) && Sampled(NoteDecode(b, d, news).samples, rs + [d])
  {
    assert (rs + [d])[..|rs|] == rs;
  }

  lemma NoteDecodeAccounts(b: Bucket, rs: seq<Decode>, d: Decode, news: nat)
    requires Accounts(b, rs)
    ensures Accounts(NoteDecode(b, d, news), rs + [d])
  {
    var b2, q := NoteDecode(b, d, news), rs + [d];
    assert Sums(b2, q) && Sampled(b2.samples, q) by { SumsOneMore(b, rs, d, news); }
    assert Extremes(b2.snr, q) by { ExtremesOneMore(b.snr, rs, d); }
    assert CallsOf(b2.calls, q) by { CallsOfOneMore(b.calls, rs, d); }
    assert Tallied(b2.kinds, q) by { TallyOneMore(b.kinds, rs, d); }
  }

  /** What an event does to one bucket: a decode that falls in it is noted, a reset
      empties it, and nothing else touches what it says about decodes. */
  ghost predicate Grows(b: Bucket, b2: Bucket, e: Event, mine: bool, news: nat) {
    match e
    case Decoded(d) => b2 == if mine then NoteDecode(b, d, news) else b
    case Reset => b2 == NEW_BUCKET
    case _ => b2 == b.(candidates := b2.candidates, audio := b2.audio, clips := b2.clips)
  }

  lemma BucketsGrow(s: Session, e: Event, k: string)
    ensures var news := if e.Decoded? then |NewCalls(s.stations, e.d, e.d.calls)| else 0;
            && Grows(Fetch(s.hours, k), Fetch(Apply(s, e).hours, k), e, e.Decoded? && e.d.hour == k, news)
            && Grows(Fetch(s.cycles, k), Fetch(Apply(s, e).cycles, k), e, e.Decoded? && e.d.cycle == k, news)
  {
    match e case Decoded(_) => case Searched(_, _) => case Audio(_, _, _) => case Reset =>
  }

  lemma GrowingAccounts(b: Bucket, b2: Bucket, es: seq<Event>, key: Decode -> string, k: string, news: nat)
    requires es != []
    requires var before, e := es[..|es| - 1], es[|es| - 1];
             && Accounts(b, Within(Decodes(before), key, k))
             && Grows(b, b2, e, e.Decoded? && key(e.d) == k, news)
    ensures Accounts(b2, Within(Decodes(es), key, k))
  {
    var ds, e := Decodes(es[..|es| - 1]), es[|es| - 1];
    match e
    case Decoded(d) =>
      assert (ds + [d])[..|ds|] == ds;
      assert Within(ds, key, k) + [] == Within(ds, key, k);
      if key(d) == k { NoteDecodeAccounts(b, Within(ds, key, k), d, news); }
    case Reset => EmptyAccounts();
    case _ =>
  }

  lemma EmptyAccounts()
    ensures Accounts(NEW_BUCKET, [])
  {
    assert Tallied(map[], []);
  }

  /** Every hour and every cycle bucket accounts for exactly the decodes that fall
      in it; a key without a bucket has none. */
  lemma {:induction false} BucketsAreExact(es: seq<Event>, k: string)
    ensures Accounts(Fetch(After(es).hours, k), Within(Decodes(es), HOUR, k))
    ensures Accounts(Fetch(After(es).cycles, k), Within(Decodes(es), CYCLE, k))
  {
    if es == [] {
      EmptyAccounts();
    } else {
      var e, s, s2 := es[|es| - 1], After(es[..|es| - 1]), After(es);
      var news := if e.Decoded? then |NewCalls(s.stations, e.d, e.d.calls)| else 0;
      BucketsAreExact(es[..|es| - 1], k);
      BucketsGrow(s, e, k);
      GrowingAccounts(Fetch(s.hours, k), Fetch(s2.hours, k), es, HOUR, k, news);
      GrowingAccounts(Fetch(s.cycles, k), Fetch(s2.cycles, k), es, CYCLE, k, news);
    }
  }

  // ------------------------------------------------------------------- debuts

  function Callers(ds: seq<Decode>): set<string> {
    if ds == [] then {} else Callers(ds[..|ds| - 1]) + Named(ds[|ds| - 1])
  }

  lemma {:induction false} CallersHaveReports(ds: seq<Decode>, c: string)
    ensures c in Callers(ds) <==> Reports(ds, c) != []
  {
    if ds != [] { CallersHaveReports(ds[..|ds| - 1], c); }
  }

  /** The stations whose first report falls in bucket `k`. */
  ghost function Debuts(ds: seq<Decode>, key: Decode -> string, k: string): set<string> {
    set c | c in Callers(ds) && Reports(ds, c) != [] && key(Reports(ds, c)[0]) == k
  }

  function NewTo(ds: seq<Decode>, d: Decode): set<string> { set c | c in d.calls && c !in Callers(ds) }

  lemma DebutsOneMore(ds: seq<Decode>, d: Decode, key: Decode -> string, k: string)
    ensures Debuts(ds + [d], key, k) == Debuts(ds, key, k) + if key(d) == k then NewTo(ds, d) else {}
    ensures Debuts(ds, key, k) !! NewTo(ds, d)
  {
    assert (ds + [d])[..|ds|] == ds;
    forall c ensures c in Debuts(ds + [d], key, k) <==> c in Debuts(ds, key, k) || (key(d) == k && c in NewTo(ds, d)) {
      CallersHaveReports(ds, c);
      CallersHaveReports(ds + [d], c);
      assert Reports(ds + [d], c) == Reports(ds, c) + Mentions(d, d.calls, c);
    }
  }

  lemma NewCallsAreNewTo(es: seq<Event>, d: Decode)
    ensures |NewCalls(After(es).stations, d, d.calls)| == |NewTo(Decodes(es), d)|
  {
    var t, ds := After(es).stations, Decodes(es);
    var t2 := NoteCalls(t, d, d.calls);
    NewCallsAreTheGain(t, d, d.calls);
    forall c ensures c in NewTo(ds, d) <==> c in t2 && c !in t {
      StationTableIsExact(es, c);
      CallersHaveReports(ds, c);
      TableGains(t, d, d.calls, c);
    }
    forall c | c in t ensures c in t2 { TableGains(t, d, d.calls, c); }
    assert t2.Keys == t.Keys + NewTo(ds, d) && t.Keys !! NewTo(ds, d);
    assert |t2.Keys| == |t2| && |t.Keys| == |t|;
  }

  lemma DebutsGrow(es: seq<Event>, key: Decode -> string, k: string)
    requires es != []
    ensures var before, e := es[..|es| - 1], es[|es| - 1];
            |Debuts(Decodes(es), key, k)| ==
            if e.Reset? then 0
            else |Debuts(Decodes(before), key, k)| +
                 if e.Decoded? && key(e.d) == k then |NewCalls(After(before).stations, e.d, e.d.calls)| else 0
  {
    var before, e := es[..|es| - 1], es[|es| - 1];
    if e.Decoded? {
      NewCallsAreNewTo(before, e.d);
      DebutsOneMore(Decodes(before), e.d, key, k);
    } else if e.Reset? {
      assert Debuts([], key, k) == {};
    }
  }

  /** A bucket's count of new stations is the number of stations first heard in it. */
  lemma {:induction false} NewsAreDebuts(es: seq<Event>, k: string)
    ensures Fetch(After(es).hours, k).news == |Debuts(Decodes(es), HOUR, k)|
    ensures Fetch(After(es).cycles, k).news == |Debuts(Decodes(es), CYCLE, k)|
  {
    if es == [] {
      assert Debuts([], HOUR, k) == {} == Debuts([], CYCLE, k);
    } else {
      NewsAreDebuts(es[..|es| - 1], k);
      BucketsGrow(After(es[..|es| - 1]), es[|es| - 1], k);
      DebutsGrow(es, HOUR, k);
      DebutsGrow(es, CYCLE, k);
    }
  }

  // --------------------------------------------------------------- the session

  lemma OneMoreCall(t: Table, d: Decode, calls: seq<string>, i: nat)
    requires i < |calls|
    ensures var t1, call := NoteCalls(t, d, calls[..i]), calls[i];
            && NoteCalls(t, d, calls[..i + 1]) == NoteCall(t1, d, call)
            && NewCalls(t, d, calls[..i + 1]) == NewCalls(t, d, calls[..i]) + (if call in t1 then [] else [call])
            && NewOnMap(t, d, calls[..i + 1]) == NewOnMap(t, d, calls[..i]) + if MapsNow(t1, d, call) then [call]
               else []
  {
    assert calls[..i + 1][..i] == calls[..i];
  }

  class SessionLog {
    var stations: Table
    var cycles: Buckets
    var hours: Buckets
    var decodes: seq<Decode>

    ghost function State(): Session
      reads this
    {
      Session(stations, cycles, hours, decodes)
    }

    constructor ()
      ensures State() == EMPTY
    {
      stations, cycles, hours, decodes := map[], map[], map[], [];
    }

    method Clear()
      modifies this
      ensures State() == Apply(old(State()), Reset)
    {
      stations, cycles, hours, decodes := map[], map[], map[], [];
    }

    /** Update the table call by call; the calls not yet in it are new, and some are
        newly on the map. */
    method NoteStations(d: Decode) returns (newCalls: seq<string>, newOnMap: seq<string>)
      modifies this`stations
      ensures stations == NoteCalls(old(stations), d, d.calls)
      ensures newCalls == NewCalls(old(stations), d, d.calls) && newOnMap == NewOnMap(old(stations), d, d.calls)
    {
      newCalls, newOnMap := [], [];
      for i := 0 to |d.calls|
        invariant stations == NoteCalls(old(stations), d, d.calls[..i])
        invariant newCalls == NewCalls(old(stations), d, d.calls[..i])
        invariant newOnMap == NewOnMap(old(stations), d, d.calls[..i])
      {
        var call := d.calls[i];
        OneMoreCall(old(stations), d, d.calls, i);
        if call in stations {
          var st, p := stations[call], PlaceOf(d, call);
          if p.grid != "" && st.grid == "" && p.located { newOnMap := newOnMap + [call]; }
          stations := stations[call := HeardAgain(st, d, call)];
        } else {
          newCalls := newCalls + [call];
          var st := Met(d, call);
          stations := stations[call := st];
          if st.onMap { newOnMap := newOnMap + [call]; }
        }
      }
      assert d.calls[..|d.calls|] == d.calls;
    }

    /** Note the decode in its cycle's and its hour's bucket, making them if needed. */
    method NoteBuckets(d: Decode, news: nat)
      modifies this`cycles, this`hours
      ensures cycles == old(cycles)[d.cycle := NoteDecode(Fetch(old(cycles), d.cycle), d, news)]
      ensures hours == old(hours)[d.hour := NoteDecode(Fetch(old(hours), d.hour), d, news)]
    {
      if d.cycle !in cycles { cycles := cycles[d.cycle := NEW_BUCKET]; }
      cycles := cycles[d.cycle := NoteDecode(cycles[d.cycle], d, news)];
      if d.hour !in hours { hours := hours[d.hour := NEW_BUCKET]; }
      hours := hours[d.hour := NoteDecode(hours[d.hour], d, news)];
    }

    /** Returns the calls that this decode puts on the map. */
    method AddDecode(d: Decode) returns (newOnMap: seq<string>)
      requires MapOk(stations)
      modifies this
      ensures State() == Apply(old(State()), Decoded(d)) && MapOk(stations)
      ensures newOnMap == NewOnMap(old(stations), d, d.calls)
      ensures forall c :: c in newOnMap <==> c in Mapped(stations) && c !in Mapped(old(stations))
    {
      ghost var before := stations;
      newOnMap := Record(d);
      NewOnMapIsTheGain(before, d, d.calls);
    }

    method Record(d: Decode) returns (newOnMap: seq<string>)
      modifies this
      ensures State() == Apply(old(State()), Decoded(d))
      ensures newOnMap == NewOnMap(old(stations), d, d.calls)
    {
      var newCalls;
      newCalls, newOnMap := NoteStations(d);
      decodes := decodes + [d];
      if |decodes| > MAX_DECODES_IN_RAM { decodes := decodes[|decodes| - MAX_DECODES_IN_RAM..]; }
      NoteBuckets(d, |newCalls|);
    }

    method NoteCycleSearch(cycle: string, candidates: nat)
      modifies this`cycles
      ensures State() == Apply(old(State()), Searched(cycle, candidates))
    {
      if cycle !in cycles { cycles := cycles[cycle := NEW_BUCKET]; }
      var b := cycles[cycle];
      cycles := cycles[cycle := b.(candidates := b.candidates + candidates)];
    }

    method NoteAudioLevels(hour: string, cycle: string, clipFraction: real)
      modifies this`hours, this`cycles
      ensures State() == Apply(old(State()), Audio(hour, cycle, clipFraction))
    {
      if hour !in hours { hours := hours[hour := NEW_BUCKET]; }
      hours := hours[hour := NoteAudio(hours[hour], clipFraction > 0.01)];
      if cycle in cycles { cycles := cycles[cycle := NoteAudio(cycles[cycle], clipFraction > 0.01)]; }
    }
  }

  /** The decodes in memory are the newest of those since the last reset. */
  lemma {:induction false} MemoryHoldsTheNewest(es: seq<Event>)
    ensures var ds := Decodes(es); After(es).decodes == if |ds| <= 10000 then ds else ds[|ds| - 10000..]
  {
    if es != [] {
      MemoryHoldsTheNewest(es[..|es| - 1]);
      if es[|es| - 1].Decoded? { NewestOfMore(Decodes(es[..|es| - 1]), es[|es| - 1].d, MAX_DECODES_IN_RAM); }
    }
  }

  lemma NewestOfMore<T>(s: seq<T>, x: T, n: nat)
    ensures Newest(Newest(s, n) + [x], n) == Newest(s + [x], n)
  {}
}

/** Audio samples gathered in a growing array and taken out in hops of fixed size. */
module HopBuffers {
  import opened Base

  function Flatten<T>(parts: seq<seq<T>>): seq<T> {
    if parts == [] then [] else Flatten(parts[..|parts| - 1]) + parts[|parts| - 1]
  }

  /** Largest multiple of hop not above n. */
  function WholeHops(n: nat, hop: nat): (r: nat)
    requires hop > 0
    ensures r <= n < r + hop
  {
    if n < hop then 0 else hop + WholeHops(n - hop, hop)
  }

  class HopBuffer<T(0)> {
    var data: array<T>
    var len: nat
    var cap: nat

    ghost predicate Valid()
      reads this
    {
      1 <= cap == data.Length && len <= cap
    }

    /** The pending samples, oldest first. */
    ghost function Contents(): seq<T>
      reads this, data
      requires Valid()
    {
      data[..len]
    }

    constructor (capacity: nat)
      requires capacity >= 1
      ensures Valid() && fresh(data) && Contents() == []
    {
      data := new T[capacity];
      len := 0;
      cap := capacity;
    }

    method Clear()
      requires Valid()
      modifies this`len
      ensures Valid() && Contents() == []
    {
      len := 0;
    }

    method Extend(samples: seq<T>)
      requires Valid()
      modifies this, data
      ensures Valid() && (data == old(data) || fresh(data))
      ensures Contents() == old(Contents()) + samples
    {
      var n := |samples|;
      if n == 0 { return; }
      var need := len + n;
      if need > cap {
        while cap < need
          modifies this`cap
          invariant 1 <= cap && len == old(len) && data == old(data)
          decreases need - cap
        {
          cap := cap * 2;
        }
        var grown := new T[cap];
        forall i | 0 <= i < len { grown[i] := data[i]; }
        data := grown;
        assert data[..len] == old(data[..len]);
      }
      assert data[..len] == old(Contents());
      forall i | 0 <= i < n { data[len + i] := samples[i]; }
      len := len + n;
      assert data[..len] == old(Contents()) + samples;
    }

    method PopHop(hop: nat) returns (out: Option<seq<T>>)
      requires Valid()
      modifies this`len, data
      ensures Valid()
      ensures |old(Contents())| < hop ==> out.None? && Contents() == old(Contents())
      ensures |old(Contents())| >= hop ==>
                out == Some(old(Contents())[..hop]) && Contents() == old(Contents())[hop..]
    {
      if len < hop { return None; }
      out := Some(data[..hop]);
      assert data[..hop] == data[..len][..hop];
      var rest := len - hop;
      forall i | 0 <= i < rest { data[i] := data[hop + i]; }
      len := rest;
      assert data[..rest] == old(data[..len])[hop..];
    }

    method Pending() returns (n: nat)
      requires Valid()
      ensures n == |Contents()|
    {
      n := len;
    }

    /** Takes whole hops out until fewer samples than one hop are pending. */
    method DrainHops(before: seq<seq<T>>, hop: nat) returns (hops: seq<seq<T>>)
      requires Valid() && hop > 0
      requires forall i :: 0 <= i < |before| ==> |before[i]| == hop
      modifies this`len, data
      ensures Valid() && |Contents()| < hop
      ensures Flatten(hops) + Contents() == Flatten(before) + old(Contents())
      ensures forall i :: 0 <= i < |hops| ==> |hops[i]| == hop
    {
      hops := before;
      while true
        invariant Valid()
        invariant Flatten(hops) + Contents() == Flatten(before) + old(Contents())
        invariant forall i :: 0 <= i < |hops| ==> |hops[i]| == hop
        decreases |Contents()|
      {
        ghost var pending := Contents();
        var out := PopHop(hop);
        if out.None? { return; }
        HopMoves(hops, pending, hop);
        hops := hops + [out.value];
      }
    }

    /** The feed loop: each chunk is appended and every whole hop taken out.
        However the stream is cut, the hops put together are its longest prefix
        of whole hops, and what is left pending is the rest. */
    method Feed(chunks: seq<seq<T>>, hop: nat) returns (hops: seq<seq<T>>)
      requires Valid() && Contents() == [] && hop > 0
      modifies this, data
      ensures Valid() && (data == old(data) || fresh(data))
      ensures var stream := Flatten(chunks);
              Flatten(hops) == stream[..WholeHops(|stream|, hop)] && Contents() == stream[WholeHops(|stream|, hop)..]
      ensures forall i :: 0 <= i < |hops| ==> |hops[i]| == hop
    {
      hops := [];
      for c := 0 to |chunks|
        invariant Valid() && (data == old(data) || fresh(data))
        invariant Flatten(hops) + Contents() == Flatten(chunks[..c])
        invariant |Contents()| < hop
        invariant forall i :: 0 <= i < |hops| ==> |hops[i]| == hop
      {
        FlattenNext(chunks, c);
        Extend(chunks[c]);
        hops := DrainHops(hops, hop);
      }
      assert chunks[..|chunks|] == chunks;
      WholeHopsOf(hops, Flatten(hops), Contents(), Flatten(chunks), hop);
    }
  }

  lemma FlattenSnoc<T>(parts: seq<seq<T>>, last: seq<T>)
    ensures Flatten(parts + [last]) == Flatten(parts) + last
  {
    assert (parts + [last])[..|parts|] == parts;
  }

  /** Moving the first hop from what is pending to the hops keeps the stream. */
  lemma HopMoves<T>(hops: seq<seq<T>>, pending: seq<T>, hop: nat)
    requires hop <= |pending|
    ensures Flatten(hops + [pending[..hop]]) + pending[hop..] == Flatten(hops) + pending
  {
    FlattenSnoc(hops, pending[..hop]);
    assert pending == pending[..hop] + pending[hop..];
  }

  lemma FlattenNext<T>(parts: seq<seq<T>>, c: nat)
    requires c < |parts|
    ensures Flatten(parts[..c + 1]) == Flatten(parts[..c]) + parts[c]
  {
    assert parts[..c + 1] == parts[..c] + [parts[c]];
    FlattenSnoc(parts[..c], parts[c]);
  }

  /** Length of k hops. */
  function Times(k: nat, hop: nat): (r: nat) {
    if k == 0 then 0 else Times(k - 1, hop) + hop
  }

  lemma {:induction false} FlattenLength<T>(hops: seq<seq<T>>, hop: nat)
    requires forall i :: 0 <= i < |hops| ==> |hops[i]| == hop
    ensures |Flatten(hops)| == Times(|hops|, hop)
  {
    if hops != [] { FlattenLength(hops[..|hops| - 1], hop); }
  }

  lemma {:induction false} MultipleBelow(k: nat, hop: nat, n: nat)
    requires hop > 0 && Times(k, hop) <= n < Times(k, hop) + hop
    ensures Times(k, hop) == WholeHops(n, hop)
    decreases k
  {
    if k > 0 { MultipleBelow(k - 1, hop, n - hop); }
  }

  lemma WholeHopsOf<T>(hops: seq<seq<T>>, emitted: seq<T>, rest: seq<T>, stream: seq<T>, hop: nat)
    requires hop > 0 && emitted == Flatten(hops) && emitted + rest == stream && |rest| < hop
    requires forall i :: 0 <= i < |hops| ==> |hops[i]| == hop
    ensures emitted == stream[..WholeHops(|stream|, hop)] && rest == stream[WholeHops(|stream|, hop)..]
  {
    FlattenLength(hops, hop);
    MultipleBelow(|hops|, hop, |stream|);
    assert emitted == (emitted + rest)[..|emitted|] && rest == (emitted + rest)[|emitted|..];
  }

  /** Hops of one size are determined by what they add up to, so two ways of
      cutting one stream give the same hops. */
  lemma {:induction false} HopsDetermined<T>(a: seq<seq<T>>, b: seq<seq<T>>, hop: nat)
    requires hop > 0
    requires forall i :: 0 <= i < |a| ==> |a[i]| == hop
    requires forall i :: 0 <= i < |b| ==> |b[i]| == hop
    requires Flatten(a) == Flatten(b)
    ensures a == b
  {
    FlattenLength(a, hop);
    FlattenLength(b, hop);
    SameCount(|a|, |b|, hop);
    if a != [] {
      var n := |a| - 1;
      var fa, fb := Flatten(a[..n]), Flatten(b[..n]);
      FlattenLength(a[..n], hop);
      FlattenLength(b[..n], hop);
      assert fa + a[n] == fb + b[n];
      assert fa == (fa + a[n])[..|fa|] && fb == (fb + b[n])[..|fb|];
      assert a[n] == (fa + a[n])[|fa|..] && b[n] == (fb + b[n])[|fb|..];
      HopsDetermined(a[..n], b[..n], hop);
      assert a == a[..n] + [a[n]] && b == b[..n] + [b[n]];
    }
  }

  lemma {:induction false} SameCount(m: nat, n: nat, hop: nat)
    requires hop > 0 && Times(m, hop) == Times(n, hop)
    ensures m == n
  {
    if m > 0 && n > 0 { SameCount(m - 1, n - 1, hop); }
  }

  /** Feeding one stream cut in two different ways emits the same hops and
      leaves the same samples pending. */
  method ChunkingIsIrrelevant<T(0)>(cut1: seq<seq<T>>, cut2: seq<seq<T>>, hop: nat)
    returns (hops1: seq<seq<T>>, hops2: seq<seq<T>>, left1: nat, left2: nat)
    requires hop > 0 && Flatten(cut1) == Flatten(cut2)
    ensures hops1 == hops2 && left1 == left2 == |Flatten(cut1)| - WholeHops(|Flatten(cut1)|, hop)
  {
    var b1 := new HopBuffer<T>(15360);
    hops1 := b1.Feed(cut1, hop);
    left1 := b1.Pending();
    var b2 := new HopBuffer<T>(15360);
    hops2 := b2.Feed(cut2, hop);
    left2 := b2.Pending();
    HopsDetermined(hops1, hops2, hop);
  }
}

/** The decode filter: a decode passes unless its key is among the last
    emitted ones, of which it remembers at most 5000. */
module DecodeFilter {

  const MEMORY: nat := 5000

  predicate Distinct<T(==)>(s: seq<T>) {
    forall i, j :: 0 <= i < j < |s| ==> s[i] != s[j]
  }

  function LastOf<T>(s: seq<T>, n: nat): seq<T> {
    if |s| <= n then s else s[|s| - n..]
  }

  class Filter<T(==)> {
    var seen: seq<T>          // insertion order, oldest first
    ghost var emitted: seq<T> // every key that passed

    /** The memory is exactly the most recent emitted keys, all different, and
        no key was emitted twice too close together. */
    ghost predicate Valid()
      reads this
    {
      seen == LastOf(emitted, MEMORY) && Distinct(seen) && Recurs(emitted)
    }

    constructor ()
      ensures Valid() && emitted == []
    {
      seen, emitted := [], [];
    }

    method Offer(key: T) returns (passes: bool)
      requires Valid()
      modifies this
      ensures Valid()
      ensures passes <==> key !in LastOf(old(emitted), MEMORY)
      ensures emitted == if passes then old(emitted) + [key] else old(emitted)
    {
      if key in seen { return false; }
      seen := seen + [key];
      emitted := emitted + [key];
      if |seen| > MEMORY { seen := seen[1..]; }
      passes := true;
      RecursNext(old(emitted), key);
    }

    /** Any stream of keys, from an empty memory. */
    method Run(keys: seq<T>) returns (out: seq<T>)
      requires Valid() && emitted == []
      modifies this
      ensures Valid() && out == emitted == Emitted(keys)
    {
      out := [];
      for i := 0 to |keys|
        invariant Valid() && out == emitted == Emitted(keys[..i])
      {
        var passes := Offer(keys[i]);
        assert keys[..i + 1][..i] == keys[..i];
        if passes { out := out + [keys[i]]; }
      }
      assert keys[..|keys|] == keys;
    }
  }

  /** What a filter with a perfect memory of its last 5000 emissions lets through. */
  function Emitted<T(==)>(keys: seq<T>): seq<T> {
    if keys == [] then []
    else
      var e := Emitted(keys[..|keys| - 1]);
      var last := keys[|keys| - 1];
      if last in LastOf(e, MEMORY) then e else e + [last]
  }

  /** Every key that comes in is among the recent emissions right after. */
  lemma {:induction false} NothingIsLost<T>(keys: seq<T>)
    requires keys != []
    ensures keys[|keys| - 1] in LastOf(Emitted(keys), MEMORY)
    ensures Recurs(Emitted(keys))
  {
    var front := keys[..|keys| - 1];
    if front != [] { NothingIsLost(front); }
    var e, last := Emitted(front), keys[|keys| - 1];
    if last !in LastOf(e, MEMORY) {
      RecursNext(e, last);
      assert LastOf(e + [last], MEMORY)[|LastOf(e + [last], MEMORY)| - 1] == last;
    }
  }

  /** Two emissions of one key are more than 5000 emissions apart. */
  predicate Recurs<T(==)>(emitted: seq<T>) {
    forall i, j :: 0 <= i < j < |emitted| && emitted[i] == emitted[j] ==> j - i > MEMORY
  }

  lemma RecursNext<T>(emitted: seq<T>, key: T)
    requires Recurs(emitted) && key !in LastOf(emitted, MEMORY)
    ensures Recurs(emitted + [key])
  {
    var e := emitted + [key];
    forall i | 0 <= i < |emitted| && e[i] == key ensures |emitted| - i > MEMORY {
      RecentIsRemembered(emitted, i);
    }
  }

  lemma RecentIsRemembered<T>(emitted: seq<T>, i: nat)
    requires i < |emitted|
    ensures |emitted| - i <= MEMORY ==> emitted[i] in LastOf(emitted, MEMORY)
  {
    var l := LastOf(emitted, MEMORY);
    if |emitted| - i <= MEMORY { assert l[i - (|emitted| - |l|)] == emitted[i]; }
  }

  /** The key is one of the last 5000 emissions. */
  predicate Recently<T(==)>(emitted: seq<T>, key: T) {
    exists i :: 0 <= i < |emitted| && |emitted| - i <= 5000 && emitted[i] == key
  }

  lemma RecentExactly<T>(emitted: seq<T>, key: T)
    ensures key in LastOf(emitted, MEMORY) <==> Recently(emitted, key)
  {
    var l := LastOf(emitted, MEMORY);
    if key in l {
      var k :| 0 <= k < |l| && l[k] == key;
      assert emitted[|emitted| - |l| + k] == key;
    }
    forall i | 0 <= i < |emitted| && |emitted| - i <= 5000 ensures emitted[i] in l { RecentIsRemembered(emitted, i); }
  }

  /** Between two emissions of one key lie 5000 emissions of other keys, all different. */
  lemma RepeatsAreFarApart<T>(emitted: seq<T>, i: nat, j: nat)
    requires Recurs(emitted) && i < j < |emitted| && emitted[i] == emitted[j]
    ensures i < j - MEMORY
    ensures Distinct(emitted[j - MEMORY..j]) && emitted[i] !in emitted[j - MEMORY..j]
  {
    var w := emitted[j - MEMORY..j];
    forall a, b | 0 <= a < b < |w| ensures w[a] != w[b] {
      assert w[a] == emitted[j - MEMORY + a] && w[b] == emitted[j - MEMORY + b];
    }
    forall a | 0 <= a < |w| ensures w[a] != emitted[j] {
      assert w[a] == emitted[j - MEMORY + a];
    }
  }
}

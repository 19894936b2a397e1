/** The dictionary utilities: a dict is its list of members in insertion order
    with distinct keys; `d[k] = v` replaces the value of an existing key in
    place and appends a new key at the end. */
module Dicts {
  import opened Wrappers
  import opened JsonValue

  function KeySet(d: seq<Member>): set<string> {
    set i | 0 <= i < |d| :: d[i].key
  }

  lemma KeySetConcat(a: seq<Member>, b: seq<Member>)
    ensures KeySet(a + b) == KeySet(a) + KeySet(b)
  {
    forall k | k in KeySet(a + b)
      ensures k in KeySet(a) + KeySet(b)
    {
      var j :| 0 <= j < |a + b| && (a + b)[j].key == k;
      if j >= |a| {
        assert b[j - |a|].key == k;
      } else {
        assert a[j].key == k;
      }
    }
    forall k | k in KeySet(a) + KeySet(b)
      ensures k in KeySet(a + b)
    {
      if k in KeySet(a) {
        var j :| 0 <= j < |a| && a[j].key == k;
        assert (a + b)[j].key == k;
      } else {
        var j :| 0 <= j < |b| && b[j].key == k;
        assert (a + b)[|a| + j].key == k;
      }
    }
  }

  lemma KeySetSingle(m: Member)
    ensures KeySet([m]) == {m.key}
  {
    assert [m][0].key == m.key;
  }

  /** `d[m.key] = m.value`. */
  function Put(d: seq<Member>, m: Member): (r: seq<Member>)
    requires DistinctKeys(d)
    ensures DistinctKeys(r)
    ensures KeySet(r) == KeySet(d) + {m.key}
    ensures forall i :: 0 <= i < |r| ==> r[i] == m || r[i] in d
    ensures forall key :: Lookup(r, key) == if key == m.key then m.value else Lookup(d, key)
  {
    KeySetSingle(m);
    if |d| == 0 then [m]
    else if d[0].key == m.key then
      PutHead(d, m);
      [m] + d[1..]
    else
      var tail := Put(d[1..], m);
      PutCons(d, m, tail);
      [d[0]] + tail
  }

  /** Overwriting the first member keeps the others and their order. */
  lemma PutHead(d: seq<Member>, m: Member)
    requires DistinctKeys(d) && |d| > 0 && d[0].key == m.key
    ensures var r := [m] + d[1..];
      && DistinctKeys(r)
      && KeySet(r) == KeySet(d) + {m.key}
      && (forall i :: 0 <= i < |r| ==> r[i] == m || r[i] in d)
      && forall key :: Lookup(r, key) == if key == m.key then m.value else Lookup(d, key)
  {
    var rest := d[1..];
    assert d == [d[0]] + rest;
    KeySetSingle(m);
    KeySetSingle(d[0]);
    KeySetConcat([d[0]], rest);
    KeySetConcat([m], rest);
    HeadKeyFresh(d);
    ConsDistinct(m, rest);
    forall i | 0 < i < |d|
      ensures ([m] + rest)[i] in d
    {
      assert ([m] + rest)[i] == d[i];
    }
    forall key
      ensures Lookup([m] + rest, key) == if key == m.key then m.value else Lookup(d, key)
    {
      LookupCons(m, rest, key);
      LookupCons(d[0], rest, key);
    }
  }

  /** Keeping the first member in front of the updated rest updates the whole. */
  lemma PutCons(d: seq<Member>, m: Member, tail: seq<Member>)
    requires DistinctKeys(d) && |d| > 0 && d[0].key != m.key
    requires DistinctKeys(tail) && KeySet(tail) == KeySet(d[1..]) + {m.key}
    requires forall i :: 0 <= i < |tail| ==> tail[i] == m || tail[i] in d[1..]
    requires forall key :: Lookup(tail, key) == if key == m.key then m.value else Lookup(d[1..], key)
    ensures var r := [d[0]] + tail;
      && DistinctKeys(r)
      && KeySet(r) == KeySet(d) + {m.key}
      && (forall i :: 0 <= i < |r| ==> r[i] == m || r[i] in d)
      && forall key :: Lookup(r, key) == if key == m.key then m.value else Lookup(d, key)
  {
    var rest := d[1..];
    var r := [d[0]] + tail;
    assert d == [d[0]] + rest;
    KeySetSingle(d[0]);
    KeySetConcat([d[0]], rest);
    KeySetConcat([d[0]], tail);
    HeadKeyFresh(d);
    ConsDistinct(d[0], tail);
    ConsWithin(d[0], m, tail, rest);
    forall key
      ensures Lookup(r, key) == if key == m.key then m.value else Lookup(d, key)
    {
      LookupCons(d[0], tail, key);
      LookupCons(d[0], rest, key);
    }
  }

  lemma HeadKeyFresh(d: seq<Member>)
    requires DistinctKeys(d) && |d| > 0
    ensures d[0].key !in KeySet(d[1..])
  {
    forall i | 0 <= i < |d| - 1
      ensures d[1..][i].key != d[0].key
    {
      assert d[1..][i] == d[i + 1];
    }
  }

  lemma ConsDistinct(h: Member, tail: seq<Member>)
    requires DistinctKeys(tail) && h.key !in KeySet(tail)
    ensures DistinctKeys([h] + tail)
  {
    var r := [h] + tail;
    forall i, j | 0 <= i < j < |r|
      ensures r[i].key != r[j].key
    {
      assert r[j] == tail[j - 1];
      if i > 0 {
        assert r[i] == tail[i - 1];
      }
    }
  }

  lemma ConsWithin(h: Member, m: Member, tail: seq<Member>, rest: seq<Member>)
    requires forall i :: 0 <= i < |tail| ==> tail[i] == m || tail[i] in rest
    ensures forall i :: 0 <= i < |[h] + tail| ==> ([h] + tail)[i] == m || ([h] + tail)[i] in [h] + rest
  {
    forall i | 0 <= i < |[h] + tail|
      ensures ([h] + tail)[i] == m || ([h] + tail)[i] in [h] + rest
    {
      if i > 0 {
        assert ([h] + tail)[i] == tail[i - 1];
      }
    }
  }

  /** A member in front is found only when no later member has its key. */
  lemma LookupCons(h: Member, rest: seq<Member>, key: string)
    ensures Lookup([h] + rest, key) ==
      if key in KeySet(rest) then Lookup(rest, key) else if key == h.key then h.value else JNull
  {
    LookupConcat([h], rest, key);
    assert [h][..0] == [];
  }

  /** In `a + b` the members of b hide those of a with the same key. */
  lemma {:induction false} LookupConcat(a: seq<Member>, b: seq<Member>, key: string)
    ensures Lookup(a + b, key) == if key in KeySet(b) then Lookup(b, key) else Lookup(a, key)
  {
    if |b| == 0 {
      assert a + b == a;
    } else {
      var init := b[..|b| - 1];
      assert (a + b)[..|a + b| - 1] == a + init;
      assert b == init + [b[|b| - 1]];
      KeySetConcat(init, [b[|b| - 1]]);
      KeySetSingle(b[|b| - 1]);
      LookupConcat(a, init, key);
    }
  }

  /** `d.update(ms)`: each member of ms put in turn. */
  function PutAll(d: seq<Member>, ms: seq<Member>): (r: seq<Member>)
    requires DistinctKeys(d)
    ensures DistinctKeys(r)
    ensures KeySet(r) == KeySet(d) + KeySet(ms)
    ensures forall i :: 0 <= i < |r| ==> r[i] in d || r[i] in ms
  {
    if |ms| == 0 then d
    else
      var init := ms[..|ms| - 1];
      assert ms == init + [ms[|ms| - 1]];
      KeySetConcat(init, [ms[|ms| - 1]]);
      KeySetSingle(ms[|ms| - 1]);
      var r := Put(PutAll(d, init), ms[|ms| - 1]);
      assert forall i :: 0 <= i < |r| ==> r[i] in d || r[i] in init || r[i] == ms[|ms| - 1];
      r
  }

  /** After `d.update(ms)` a key of ms has its value in ms, any other key its old value. */
  lemma {:induction false} LookupPutAll(d: seq<Member>, ms: seq<Member>, key: string)
    requires DistinctKeys(d)
    ensures Lookup(PutAll(d, ms), key) == if key in KeySet(ms) then Lookup(ms, key) else Lookup(d, key)
  {
    if |ms| > 0 {
      var init := ms[..|ms| - 1];
      assert ms == init + [ms[|ms| - 1]];
      KeySetConcat(init, [ms[|ms| - 1]]);
      KeySetSingle(ms[|ms| - 1]);
      LookupPutAll(d, init, key);
    }
  }

  // ----- flat_nested_dict -----

  /** The non-dict values of a nested dict, in the order the recursion visits them. */
  function Leaves(ms: seq<Member>): (r: seq<Member>)
    ensures forall i :: 0 <= i < |r| ==> !r[i].value.JObject?
    decreases ms
  {
    if |ms| == 0 then []
    else
      var last := ms[|ms| - 1];
      Leaves(ms[..|ms| - 1]) + (if last.value.JObject? then Leaves(last.value.members) else [last])
  }

  predicate NoDicts(d: seq<Member>) {
    forall i :: 0 <= i < |d| ==> !d[i].value.JObject?
  }

  /** `flat_nested_dict(d)`: the result holds no dict value, has a key for
      every non-dict value reached through nested dicts, and for each key the
      value visited last. */
  method FlatNestedDict(ms: seq<Member>) returns (r: seq<Member>)
    ensures DistinctKeys(r) && NoDicts(r)
    ensures KeySet(r) == KeySet(Leaves(ms))
    ensures forall key :: Lookup(r, key) == Lookup(Leaves(ms), key)
    decreases ms
  {
    r := [];
    var i := 0;
    while i < |ms|
      invariant 0 <= i <= |ms|
      invariant DistinctKeys(r) && NoDicts(r)
      invariant KeySet(r) == KeySet(Leaves(ms[..i]))
      invariant forall key :: Lookup(r, key) == Lookup(Leaves(ms[..i]), key)
    {
      var m := ms[i];
      assert ms[..i + 1][..i] == ms[..i];
      if !m.value.JObject? {
        assert Leaves(ms[..i + 1]) == Leaves(ms[..i]) + [m];
        KeySetConcat(Leaves(ms[..i]), [m]);
        KeySetSingle(m);
        forall key
          ensures Lookup(Leaves(ms[..i]) + [m], key) == if key == m.key then m.value else Lookup(Leaves(ms[..i]), key)
        {
          LookupConcat(Leaves(ms[..i]), [m], key);
        }
        r := Put(r, m);
      } else {
        var sub := FlatNestedDict(m.value.members);
        var before := Leaves(ms[..i]);
        var added := Leaves(m.value.members);
        assert Leaves(ms[..i + 1]) == before + added;
        forall key
          ensures Lookup(PutAll(r, sub), key) == Lookup(before + added, key)
        {
          LookupPutAll(r, sub, key);
          LookupConcat(before, added, key);
        }
        KeySetConcat(before, added);
        r := PutAll(r, sub);
      }
      i := i + 1;
    }
    assert ms[..|ms|] == ms;
  }

  // ----- make_lists_values -----

  /** A list value is kept; any other value becomes the list `[v]`. */
  function Wrap(v: Json): (w: Json)
    ensures w.JArray?
    ensures v.JArray? ==> w == v
    ensures !v.JArray? ==> w == JArray([v])
  {
    if v.JArray? then v else JArray([v])
  }

  /** A dict whose every value is a list. */
  function WrapValues(d: seq<Member>): (r: seq<Member>)
    ensures |r| == |d| && forall i :: 0 <= i < |d| ==> r[i].key == d[i].key && r[i].value.JArray?
    ensures forall i :: 0 <= i < |d| ==> r[i].value == Wrap(d[i].value)
  {
    seq(|d|, i requires 0 <= i < |d| => Member(d[i].key, Wrap(d[i].value)))
  }

  /** Wrapping twice changes nothing more than wrapping once, and list values
      are kept as they are. */
  lemma WrapValuesIdempotent(d: seq<Member>)
    ensures WrapValues(WrapValues(d)) == WrapValues(d)
    ensures forall i :: 0 <= i < |d| && d[i].value.JArray? ==> WrapValues(d)[i] == d[i]
  {
  }

  /** A Python dict, mutated in place. */
  class Dict {
    var entries: seq<Member>

    ghost predicate Valid()
      reads this
    {
      DistinctKeys(entries)
    }

    constructor (entries: seq<Member>)
      requires DistinctKeys(entries)
      ensures Valid() && this.entries == entries
    {
      this.entries := entries;
    }

    /** `make_lists_values(d)`: every value that is not a list becomes a
        one-element list holding it; keys and their order stay. */
    method MakeListsValues()
      requires Valid()
      modifies this
      ensures Valid() && entries == WrapValues(old(entries))
    {
      var i := 0;
      while i < |entries|
        invariant 0 <= i <= |entries| && |entries| == |old(entries)|
        invariant forall j :: 0 <= j < i ==> entries[j] == WrapValues(old(entries))[j]
        invariant forall j :: i <= j < |entries| ==> entries[j] == old(entries)[j]
      {
        var m := entries[i];
        if !m.value.JArray? {
          entries := entries[i := Member(m.key, JArray([m.value]))];
        }
        i := i + 1;
      }
    }
  }

  // ----- merge_dicts -----

  /** Both dicts hold a list under the key of member k of m1. */
  predicate ListsAt(m1: seq<Member>, m2: seq<Member>, k: nat)
    requires k < |m1|
  {
    m1[k].value.JArray? && Lookup(m2, m1[k].key).JArray?
  }

  /** The number of leading keys of m1 that hold lists in both dicts. */
  function ListPrefix(m1: seq<Member>, m2: seq<Member>, from: nat): (n: nat)
    requires from <= |m1|
    ensures from <= n <= |m1|
    ensures forall k :: from <= k < n ==> ListsAt(m1, m2, k)
    ensures n < |m1| ==> !ListsAt(m1, m2, n)
    decreases |m1| - from
  {
    if from == |m1| || !ListsAt(m1, m2, from) then from else ListPrefix(m1, m2, from + 1)
  }

  /** m1 with the lists of its first n keys extended by those of m2. */
  function MergedUpTo(m1: seq<Member>, m2: seq<Member>, n: nat): (r: seq<Member>)
    requires n <= |m1| && forall k :: 0 <= k < n ==> ListsAt(m1, m2, k)
    ensures |r| == |m1| && forall i :: 0 <= i < |m1| ==> r[i].key == m1[i].key
  {
    seq(|m1|, i requires 0 <= i < |m1| =>
      if i < n then
        assert ListsAt(m1, m2, i);
        Member(m1[i].key, JArray(m1[i].value.items + Lookup(m2, m1[i].key).items))
      else m1[i])
  }

  /** `merge_dicts(dict1, dict2)`: asserts equal key sets, then for each key in
      dict1's order asserts both values are lists and extends dict1's list by
      dict2's; a failed assertion leaves the keys merged so far merged. The
      value of dict2 for a key is read before that key of dict1 changes, so
      passing the same dict twice doubles every list. */
  method MergeDicts(dict1: Dict, dict2: Dict) returns (outcome: Outcome)
    requires dict1.Valid() && dict2.Valid()
    modifies dict1
    ensures dict1.Valid()
    ensures outcome.Pass? <==>
      KeySet(old(dict1.entries)) == KeySet(old(dict2.entries))
      && ListPrefix(old(dict1.entries), old(dict2.entries), 0) == |old(dict1.entries)|
    ensures outcome.Fail? ==> outcome.error == AssertionError
    ensures dict1.entries == MergedUpTo(old(dict1.entries), old(dict2.entries),
      if KeySet(old(dict1.entries)) == KeySet(old(dict2.entries))
      then ListPrefix(old(dict1.entries), old(dict2.entries), 0) else 0)
  {
    var m1, m2 := dict1.entries, dict2.entries;
    if KeySet(m1) != KeySet(m2) {
      assert MergedUpTo(m1, m2, 0) == m1;
      return Fail(AssertionError);
    }
    var stop := ListPrefix(m1, m2, 0);
    var i := 0;
    while i < |m1|
      invariant 0 <= i <= stop
      invariant dict1.entries == MergedUpTo(m1, m2, i)
    {
      var key := dict1.entries[i].key;
      var v1, v2 := dict1.entries[i].value, Lookup(m2, key);
      assert dict1.entries[i] == m1[i];
      if !v1.JArray? || !v2.JArray? {
        assert !ListsAt(m1, m2, i);
        assert i == stop;
        return Fail(AssertionError);
      }
      assert ListsAt(m1, m2, i);
      dict1.entries := dict1.entries[i := Member(key, JArray(v1.items + v2.items))];
      i := i + 1;
    }
    return Pass;
  }

  /** After a successful merge every key holds dict1's old list followed by dict2's. */
  lemma MergedLookup(m1: seq<Member>, m2: seq<Member>, key: string)
    requires DistinctKeys(m1) && key in KeySet(m1)
    requires ListPrefix(m1, m2, 0) == |m1|
    ensures Lookup(m1, key).JArray? && Lookup(m2, key).JArray?
    ensures Lookup(MergedUpTo(m1, m2, |m1|), key)
      == JArray(Lookup(m1, key).items + Lookup(m2, key).items)
  {
    var i :| 0 <= i < |m1| && m1[i].key == key;
    assert ListsAt(m1, m2, i);
    LookupDistinct(m1, i);
    LookupDistinct(MergedUpTo(m1, m2, |m1|), i);
  }

  // ----- init_dict -----

  /** `[None] * length`. */
  function Nones(length: int): (v: Json)
    ensures v.JArray? && |v.items| == (if length < 0 then 0 else length)
    ensures forall k :: 0 <= k < |v.items| ==> v.items[k] == JNull
  {
    JArray(seq(if length < 0 then 0 else length, _ => JNull))
  }

  /** `init_dict(labels, length)`: every label (once) mapped to a list of `length` Nones. */
  function InitDict(labels: seq<string>, length: int): (r: seq<Member>)
    ensures DistinctKeys(r)
    ensures KeySet(r) == set k | k in labels
    ensures forall i :: 0 <= i < |r| ==> r[i].value == Nones(length)
  {
    if |labels| == 0 then []
    else
      var init := labels[..|labels| - 1];
      var r := Put(InitDict(init, length), Member(labels[|labels| - 1], Nones(length)));
      assert labels == init + [labels[|labels| - 1]];
      r
  }
}

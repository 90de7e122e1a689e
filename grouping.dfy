/**
 * Grouping a sequence by a key, the way an insertion-ordered `Map` (or a
 * Python dict) filled in a loop groups it: keys in order of first
 * occurrence, each group holding its elements in input order.
 */
module Grouping {
  import opened Common

  /** The elements whose key is `k`. */
  function HasKey<T, K(==)>(k: K, key: T -> K): T -> bool
  {
    x => key(x) == k
  }

  /** Distinct keys of `s` in order of first occurrence. */
  function FirstOccurrences<T, K(==)>(s: seq<T>, key: T -> K): (ks: seq<K>)
    ensures forall i, j :: 0 <= i < j < |ks| ==> ks[i] != ks[j]
    decreases |s|
  {
    if s == [] then []
    else
      var ks := FirstOccurrences(s[..|s| - 1], key);
      if key(s[|s| - 1]) in ks then ks else ks + [key(s[|s| - 1])]
  }

  /** The listed keys are exactly the keys of the elements. */
  lemma {:induction false} FirstOccurrencesMembers<T, K>(s: seq<T>, key: T -> K)
    ensures forall i :: 0 <= i < |s| ==> key(s[i]) in FirstOccurrences(s, key)
    ensures forall k :: k in FirstOccurrences(s, key) ==> exists i :: 0 <= i < |s| && key(s[i]) == k
    decreases |s|
  {
    if s != [] {
      var init := s[..|s| - 1];
      FirstOccurrencesMembers(init, key);
      assert forall i :: 0 <= i < |init| ==> init[i] == s[i];
    }
  }

  /** The group of each key, in key order. */
  function Groups<T, K(==)>(ks: seq<K>, s: seq<T>, key: T -> K): (gs: seq<seq<T>>)
    ensures |gs| == |ks|
    ensures forall i :: 0 <= i < |ks| ==> gs[i] == Filter(s, HasKey(ks[i], key))
  {
    if ks == [] then [] else [Filter(s, HasKey(ks[0], key))] + Groups(ks[1..], s, key)
  }

  function Flatten<T>(gs: seq<seq<T>>): seq<T>
  {
    if gs == [] then [] else gs[0] + Flatten(gs[1..])
  }

  lemma {:induction false} FlattenAppend<T>(a: seq<seq<T>>, b: seq<seq<T>>)
    ensures Flatten(a + b) == Flatten(a) + Flatten(b)
  {
    if a == [] {
      assert a + b == b;
    } else {
      assert (a + b)[1..] == a[1..] + b;
      FlattenAppend(a[1..], b);
    }
  }

  /** The first block of a mapped, flattened sequence comes first. */
  lemma FlattenMapCons<T, U>(s: seq<T>, f: T -> seq<U>)
    requires s != []
    ensures Flatten(Map(s, f)) == f(s[0]) + Flatten(Map(s[1..], f))
  {
    assert Map(s, f)[1..] == Map(s[1..], f);
  }

  /** One more element appends its block. */
  lemma FlattenMapSnoc<T, U>(s: seq<T>, i: nat, f: T -> seq<U>)
    requires i < |s|
    ensures Flatten(Map(s[..i + 1], f)) == Flatten(Map(s[..i], f)) + f(s[i])
  {
    var pre, x := s[..i], s[i];
    assert s[..i + 1] == pre + [x];
    MapAppend(pre, [x], f);
    assert Map([x], f) == [f(x)];
    FlattenAppend(Map(pre, f), [f(x)]);
    assert [f(x)][1..] == [];
    assert Flatten([f(x)]) == f(x) + Flatten([]) == f(x);
  }

  /** Adding one element to `s` adds it to exactly the group of its key, if that key is listed. */
  lemma {:induction false} GroupsSnoc<T, K>(ks: seq<K>, s: seq<T>, x: T, key: T -> K)
    requires forall i, j :: 0 <= i < j < |ks| ==> ks[i] != ks[j]
    ensures multiset(Flatten(Groups(ks, s + [x], key)))
      == multiset(Flatten(Groups(ks, s, key))) + (if key(x) in ks then multiset{x} else multiset{})
  {
    if ks != [] {
      var p := HasKey(ks[0], key);
      var rest, restX := Flatten(Groups(ks[1..], s, key)), Flatten(Groups(ks[1..], s + [x], key));
      GroupsSnoc(ks[1..], s, x, key);
      assert Flatten(Groups(ks, s + [x], key)) == Filter(s + [x], p) + restX;
      assert Flatten(Groups(ks, s, key)) == Filter(s, p) + rest;
      FilterAppend(s, [x], p);
      FilterSingle(x, p);
      assert key(x) in ks <==> key(x) == ks[0] || key(x) in ks[1..];
    }
  }

  /**
   * Every element is in exactly one group, the one of its key: the groups
   * concatenated are a permutation of the input.
   */
  lemma {:induction false} GroupsPartition<T, K>(s: seq<T>, key: T -> K)
    ensures multiset(Flatten(Groups(FirstOccurrences(s, key), s, key))) == multiset(s)
    decreases |s|
  {
    if s != [] {
      var init := s[..|s| - 1];
      var x := s[|s| - 1];
      assert s == init + [x];
      var ks := FirstOccurrences(init, key);
      GroupsPartition(init, key);
      GroupsSnoc(ks, init, x, key);
      if key(x) in ks {
        assert FirstOccurrences(s, key) == ks;
      } else {
        assert FirstOccurrences(s, key) == ks + [key(x)];
        NewKeyGroup(init, x, key);
      }
    }
  }

  /** The groups together hold as many elements as the input, and every element of it. */
  lemma GroupsCover<T, K>(s: seq<T>, key: T -> K)
    ensures |Flatten(Groups(FirstOccurrences(s, key), s, key))| == |s|
    ensures forall x :: x in s ==> x in Flatten(Groups(FirstOccurrences(s, key), s, key))
  {
    var flat := Flatten(Groups(FirstOccurrences(s, key), s, key));
    GroupsPartition(s, key);
    assert |flat| == |multiset(flat)| == |multiset(s)| == |s|;
    forall x | x in s
      ensures x in flat
    {
      assert x in multiset(s);
    }
  }

  /** A key not yet seen opens a group holding only the new element. */
  lemma NewKeyGroup<T, K>(init: seq<T>, x: T, key: T -> K)
    requires key(x) !in FirstOccurrences(init, key)
    ensures multiset(Flatten(Groups(FirstOccurrences(init, key) + [key(x)], init + [x], key)))
      == multiset(Flatten(Groups(FirstOccurrences(init, key), init + [x], key))) + multiset{x}
  {
    var kx := key(x);
    var s := init + [x];
    FirstOccurrencesMembers(init, key);
    GroupsAppendKeys(FirstOccurrences(init, key), [kx], s, key);
    assert forall i :: 0 <= i < |init| ==> !HasKey(kx, key)(init[i]);
    FilterNone(init, HasKey(kx, key));
    FilterAppend(init, [x], HasKey(kx, key));
    assert Filter([x], HasKey(kx, key)) == [x];
    assert Flatten(Groups([kx], s, key)) == [x] by {
      assert Groups([kx], s, key) == [Filter(s, HasKey(kx, key))];
      assert Flatten(Groups([kx], s, key)) == Filter(s, HasKey(kx, key)) + Flatten([]);
    }
  }

  lemma {:induction false} GroupsAppendKeys<T, K>(ks1: seq<K>, ks2: seq<K>, s: seq<T>, key: T -> K)
    ensures Flatten(Groups(ks1 + ks2, s, key)) == Flatten(Groups(ks1, s, key)) + Flatten(Groups(ks2, s, key))
  {
    if ks1 == [] {
      assert ks1 + ks2 == ks2;
    } else {
      assert (ks1 + ks2)[1..] == ks1[1..] + ks2;
      GroupsAppendKeys(ks1[1..], ks2, s, key);
    }
  }

  /** Each key with its group, in key order (`Array.from(m.entries())`). */
  function Grouped<T, K(==)>(s: seq<T>, key: T -> K): seq<(K, seq<T>)>
  {
    var ks := FirstOccurrences(s, key);
    Zip(ks, Groups(ks, s, key))
  }

  function Zip<A, B>(a: seq<A>, b: seq<B>): (r: seq<(A, B)>)
    requires |a| == |b|
    ensures |r| == |a|
    ensures forall i :: 0 <= i < |a| ==> r[i] == (a[i], b[i])
  {
    if a == [] then [] else [(a[0], b[0])] + Zip(a[1..], b[1..])
  }

  /**
   * The groups: keys distinct and in order of first occurrence; each group
   * non-empty, in input order and holding exactly the elements of its key.
   */
  lemma GroupedMeaning<T, K>(s: seq<T>, key: T -> K, i: int)
    requires 0 <= i < |Grouped(s, key)|
    ensures var g := Grouped(s, key);
      && (forall j :: 0 <= j < |g| && j != i ==> g[j].0 != g[i].0)
      && |g[i].1| > 0 && SubsequenceOf(g[i].1, s)
      && (forall x :: x in g[i].1 <==> x in s && key(x) == g[i].0)
  {
    var ks := FirstOccurrences(s, key);
    assert Grouped(s, key)[i] == (ks[i], Filter(s, HasKey(ks[i], key)));
    GroupOfKey(s, key, ks[i]);
  }

  lemma GroupOfKey<T, K>(s: seq<T>, key: T -> K, k: K)
    requires k in FirstOccurrences(s, key)
    ensures |Filter(s, HasKey(k, key))| > 0 && SubsequenceOf(Filter(s, HasKey(k, key)), s)
    ensures forall x :: x in Filter(s, HasKey(k, key)) <==> x in s && key(x) == k
  {
    FirstOccurrencesMembers(s, key);
    var n :| 0 <= n < |s| && key(s[n]) == k;
    FilterMembers(s, HasKey(k, key));
    assert HasKey(k, key)(s[n]);
    FilterIsSubsequence(s, HasKey(k, key));
  }

  /**
   * Every element lands in the group of its own key, and the groups together
   * are a permutation of the input.
   */
  lemma GroupedCovers<T, K>(s: seq<T>, key: T -> K, x: T)
    requires x in s
    ensures var g := Grouped(s, key);
      exists i :: 0 <= i < |g| && g[i].0 == key(x) && x in g[i].1
    ensures multiset(Flatten(Groups(FirstOccurrences(s, key), s, key))) == multiset(s)
  {
    var ks := FirstOccurrences(s, key);
    var g := Grouped(s, key);
    GroupsPartition(s, key);
    FirstOccurrencesMembers(s, key);
    var n :| 0 <= n < |s| && s[n] == x;
    var i :| 0 <= i < |ks| && ks[i] == key(x);
    GroupOfKey(s, key, ks[i]);
    assert x in g[i].1;
  }

  /** An insertion-ordered map from keys to groups: its keys in insertion order, and the groups. */
  datatype Buckets<T, K> = Buckets(keys: seq<K>, groups: map<K, seq<T>>)

  /** `if (!m.has(k)) m.set(k, []); m.get(k).push(x)`, or `m.setdefault(k, []).append(x)`. */
  function Push<T, K(==)>(b: Buckets<T, K>, k: K, x: T): Buckets<T, K>
  {
    if k in b.groups then Buckets(b.keys, b.groups[k := b.groups[k] + [x]])
    else Buckets(b.keys + [k], b.groups[k := [x]])
  }

  /** The map after pushing every element of `s` under its key, starting empty. */
  function PushAll<T, K(==)>(s: seq<T>, key: T -> K): Buckets<T, K>
    decreases |s|
  {
    if s == [] then Buckets([], map[])
    else Push(PushAll(s[..|s| - 1], key), key(s[|s| - 1]), s[|s| - 1])
  }

  /** The entries of the map in insertion order. */
  function Entries<T, K(==)>(b: Buckets<T, K>): (r: seq<(K, seq<T>)>)
    requires forall k :: k in b.keys ==> k in b.groups
    ensures |r| == |b.keys|
    decreases |b.keys|
  {
    if b.keys == [] then []
    else [(b.keys[0], b.groups[b.keys[0]])] + Entries(Buckets(b.keys[1..], b.groups))
  }

  /** After the loop the map holds, under each first-occurrence key, exactly the elements with that key. */
  lemma {:induction false} PushAllMeaning<T, K>(s: seq<T>, key: T -> K)
    ensures PushAll(s, key).keys == FirstOccurrences(s, key)
    ensures forall k :: k in PushAll(s, key).groups <==> k in FirstOccurrences(s, key)
    ensures forall k :: k in PushAll(s, key).groups ==> PushAll(s, key).groups[k] == Filter(s, HasKey(k, key))
    decreases |s|
  {
    if s != [] {
      var init, x := s[..|s| - 1], s[|s| - 1];
      assert s == init + [x];
      PushAllMeaning(init, key);
      FirstOccurrencesMembers(init, key);
      var b := PushAll(s, key);
      assert b == Push(PushAll(init, key), key(x), x);
      assert FirstOccurrences(s, key) == if key(x) in FirstOccurrences(init, key) then FirstOccurrences(init, key)
        else FirstOccurrences(init, key) + [key(x)];
      forall k | k in b.groups
        ensures b.groups[k] == Filter(s, HasKey(k, key))
      {
        FilterAppend(init, [x], HasKey(k, key));
        FilterSingle(x, HasKey(k, key));
        if k == key(x) && key(x) !in FirstOccurrences(init, key) {
          forall n | 0 <= n < |init|
            ensures !HasKey(k, key)(init[n])
          {
          }
          FilterNone(init, HasKey(k, key));
        }
      }
    }
  }

  /** The entries of the filled map are the groups. */
  lemma EntriesArePushedGroups<T, K>(s: seq<T>, key: T -> K)
    ensures forall k :: k in PushAll(s, key).keys ==> k in PushAll(s, key).groups
    ensures Entries(PushAll(s, key)) == Grouped(s, key)
  {
    PushAllMeaning(s, key);
    var b := PushAll(s, key);
    EntriesOfKeys(b, s, key);
  }

  lemma {:induction false} EntriesOfKeys<T, K>(b: Buckets<T, K>, s: seq<T>, key: T -> K)
    requires forall k :: k in b.keys ==> k in b.groups && b.groups[k] == Filter(s, HasKey(k, key))
    ensures Entries(b) == Zip(b.keys, Groups(b.keys, s, key))
    decreases |b.keys|
  {
    if b.keys != [] {
      EntriesOfKeys(Buckets(b.keys[1..], b.groups), s, key);
    }
  }

  /**
   * The loop that fills the map: one pass, pushing each element into the
   * list of its key, a new key opening an empty list first; then the entries.
   */
  method GroupInOrder<T, K(==)>(items: seq<T>, key: T -> K) returns (grouped: seq<(K, seq<T>)>)
    ensures grouped == Grouped(items, key)
  {
    var keys: seq<K> := [];
    var m: map<K, seq<T>> := map[];
    var i := 0;
    while i < |items|
      invariant 0 <= i <= |items|
      invariant Buckets(keys, m) == PushAll(items[..i], key)
    {
      var it := items[i];
      var k := key(it);
      ghost var before := Buckets(keys, m);
      assert items[..i + 1][..i] == items[..i];
      assert PushAll(items[..i + 1], key) == Push(before, k, it);
      if k !in m {
        keys := keys + [k];
        m := m[k := []];
        assert m[k] + [it] == [it];
      }
      m := m[k := m[k] + [it]];
      assert Buckets(keys, m) == Push(before, k, it);
      i := i + 1;
    }
    assert items[..|items|] == items;
    EntriesArePushedGroups(items, key);
    grouped := Entries(Buckets(keys, m));
  }
}

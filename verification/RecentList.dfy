/** Two lists without repeats: favorites, and the eight keys used last. */
module RecentList {
  import opened Wrappers

  const MAX_FAVORITES := 64
  const MAX_RECENT := 8

  type Keys = seq<string>

  predicate Distinct(list: Keys) {
    forall i, j | 0 <= i < j < |list| :: list[i] != list[j]
  }

  function FirstOf(list: Keys, n: nat): Keys {
    if |list| <= n then list else list[..n]
  }

  function Without(list: Keys, key: string): Keys {
    if list == [] then []
    else
      var rest, last := Without(list[..|list| - 1], key), list[|list| - 1];
      if last == key then rest else rest + [last]
  }

  /** Each key at its first place. */
  function Deduped(list: Keys): Keys {
    if list == [] then []
    else
      var rest, last := Deduped(list[..|list| - 1]), list[|list| - 1];
      if last in rest then rest else rest + [last]
  }

  /** Most recent first, with no bound. */
  function Noted(list: Keys, key: string): Keys {
    [key] + Without(list, key)
  }

  function NotedBounded(list: Keys, key: string): Keys {
    FirstOf(Noted(list, key), MAX_RECENT)
  }

  function AllNoted(list: Keys, uses: Keys): Keys {
    if uses == [] then list else Noted(AllNoted(list, uses[..|uses| - 1]), uses[|uses| - 1])
  }

  function AllNotedBounded(list: Keys, uses: Keys): Keys {
    if uses == [] then list else NotedBounded(AllNotedBounded(list, uses[..|uses| - 1]), uses[|uses| - 1])
  }

  function Toggled(favorites: Keys, key: string): Keys {
    if key in favorites then
      var at := PlaceOf(favorites, key);
      favorites[..at] + favorites[at + 1..]
    else favorites + [key]
  }

  /** The first place of a key. */
  function PlaceOf(list: Keys, key: string): (r: nat)
    requires key in list
    ensures r < |list| && list[r] == key && forall i | 0 <= i < r :: list[i] != key
  {
    if list[0] == key then 0 else 1 + PlaceOf(list[1..], key)
  }

  class Prefs {
    var favorites: Keys
    var recent: Keys

    constructor ()
      ensures favorites == [] && recent == []
    {
      favorites, recent := [], [];
    }

    /** Keeps each key the first time it is seen, then cuts the list. */
    static method Dedup(list: Keys, limit: nat) returns (r: Keys)
      ensures r == FirstOf(Deduped(list), limit)
    {
      var seen: set<string> := {};
      r := [];
      var i := 0;
      while i < |list|
        invariant 0 <= i <= |list| && r == Deduped(list[..i])
        invariant seen == set k | k in r
      {
        assert list[..i + 1][..i] == list[..i];
        if list[i] !in seen {
          seen := seen + {list[i]};
          r := r + [list[i]];
        }
        i := i + 1;
      }
      assert list[..i] == list;
      r := FirstOf(r, limit);
    }

    method Normalize()
      modifies this
      ensures favorites == FirstOf(Deduped(old(favorites)), MAX_FAVORITES)
      ensures recent == FirstOf(Deduped(old(recent)), MAX_RECENT)
    {
      favorites := Dedup(favorites, MAX_FAVORITES);
      recent := Dedup(recent, MAX_RECENT);
    }

    method ToggleFavorite(key: string)
      modifies this`favorites
      ensures favorites == Toggled(old(favorites), key)
      ensures key in old(favorites) && Distinct(old(favorites)) ==> key !in favorites
      ensures key !in old(favorites) ==> key in favorites
    {
      if key in favorites {
        var at := PlaceOf(favorites, key);
        favorites := favorites[..at] + favorites[at + 1..];
      } else {
        favorites := favorites + [key];
      }
    }

    /** The key moves to the front, or enters there and may push the eighth out. */
    method NoteRecent(key: string)
      modifies this`recent
      ensures recent == NotedBounded(old(recent), key)
    {
      var kept: Keys := [];
      var i := 0;
      while i < |recent|
        invariant 0 <= i <= |recent| && kept == Without(recent[..i], key)
      {
        assert recent[..i + 1][..i] == recent[..i];
        if recent[i] != key {
          kept := kept + [recent[i]];
        }
        i := i + 1;
      }
      assert recent[..i] == recent;
      recent := FirstOf([key] + kept, MAX_RECENT);
    }
  }

  // ---- lists without repeats ----

  lemma {:induction false} WithoutHolds(list: Keys, key: string, k: string)
    ensures k in Without(list, key) <==> k in list && k != key
  {
    if list != [] {
      WithoutHolds(list[..|list| - 1], key, k);
      assert k in list <==> k in list[..|list| - 1] || k == list[|list| - 1];
    }
  }

  lemma {:induction false} WithoutIsDistinct(list: Keys, key: string)
    requires Distinct(list)
    ensures Distinct(Without(list, key))
  {
    if list != [] {
      var rest, last := list[..|list| - 1], list[|list| - 1];
      WithoutIsDistinct(rest, key);
      WithoutHolds(rest, key, last);
      assert last !in rest;
    }
  }

  lemma NotedIsDistinct(list: Keys, key: string)
    requires Distinct(list)
    ensures Distinct(Noted(list, key))
  {
    WithoutIsDistinct(list, key);
    WithoutHolds(list, key, key);
  }

  lemma {:induction false} AllNotedIsDistinct(list: Keys, uses: Keys)
    requires Distinct(list)
    ensures Distinct(AllNoted(list, uses))
  {
    if uses != [] {
      AllNotedIsDistinct(list, uses[..|uses| - 1]);
      NotedIsDistinct(AllNoted(list, uses[..|uses| - 1]), uses[|uses| - 1]);
    }
  }

  // ---- the bounded list refines the unbounded one ----

  lemma {:induction false} WithoutAbsent(list: Keys, key: string)
    requires key !in list
    ensures Without(list, key) == list
  {
    if list != [] {
      WithoutAbsent(list[..|list| - 1], key);
      assert list[..|list| - 1] + [list[|list| - 1]] == list;
    }
  }

  lemma {:induction false} WithoutJoin(a: Keys, b: Keys, key: string)
    ensures Without(a + b, key) == Without(a, key) + Without(b, key)
    decreases |b|
  {
    if b == [] {
      assert a + b == a && Without(a, key) + [] == Without(a, key);
    } else {
      assert (a + b)[..|a + b| - 1] == a + b[..|b| - 1];
      WithoutJoin(a, b[..|b| - 1], key);
    }
  }

  /** Of a list without repeats at most one goes. */
  lemma {:induction false} WithoutLength(list: Keys, key: string)
    requires Distinct(list)
    ensures |Without(list, key)| == |list| - if key in list then 1 else 0
  {
    if list != [] {
      var rest, last := list[..|list| - 1], list[|list| - 1];
      WithoutLength(rest, key);
      assert list == rest + [last];
      if last == key {
        WithoutAbsent(rest, key);
      }
    }
  }

  lemma NotedAgrees(list: Keys, key: string)
    requires Distinct(list)
    ensures NotedBounded(FirstOf(list, MAX_RECENT), key) == FirstOf(Noted(list, key), MAX_RECENT)
  {
    if |list| > MAX_RECENT {
      var a, b := list[..MAX_RECENT], list[MAX_RECENT..];
      assert list == a + b;
      WithoutJoin(a, b, key);
      WithoutLength(a, key);
      if key !in a {
        WithoutAbsent(a, key);
      }
    }
  }

  /** After any additions the bounded list is the first eight of the unbounded one, from any list without repeats. */
  lemma {:induction false} BoundedIsTheFirstEight(list: Keys, uses: Keys)
    requires Distinct(list)
    ensures AllNotedBounded(FirstOf(list, MAX_RECENT), uses) == FirstOf(AllNoted(list, uses), MAX_RECENT)
  {
    if uses != [] {
      var some := uses[..|uses| - 1];
      BoundedIsTheFirstEight(list, some);
      AllNotedIsDistinct(list, some);
      NotedAgrees(AllNoted(list, some), uses[|uses| - 1]);
    }
  }

  // ---- the unbounded one is the keys by last use ----

  /** How long ago a key was used: the place of its last use, or nothing. */
  function LastUse(uses: Keys, key: string): Option<nat> {
    if uses == [] then None
    else if uses[|uses| - 1] == key then Some(|uses| - 1)
    else LastUse(uses[..|uses| - 1], key)
  }

  /**
     Whether one key comes before another: it was used later, or only it was used, or neither was and it
     came before in the list.
  */
  predicate ComesBefore(list: Keys, uses: Keys, a: string, b: string) {
    match (LastUse(uses, a), LastUse(uses, b))
    case (Some(x), Some(y)) => x > y
    case (Some(_), None) => true
    case (None, Some(_)) => false
    case (None, None) => a in list && b in list && PlaceOf(list, a) < PlaceOf(list, b)
  }

  ghost predicate InOrder(result: Keys, list: Keys, uses: Keys) {
    forall i, j | 0 <= i < j < |result| :: ComesBefore(list, uses, result[i], result[j])
  }

  lemma {:induction false} LastUseBound(uses: Keys, key: string)
    ensures LastUse(uses, key).Some? ==> LastUse(uses, key).value < |uses|
    ensures LastUse(uses, key).Some? <==> key in uses
  {
    if uses != [] {
      LastUseBound(uses[..|uses| - 1], key);
      assert key in uses <==> key in uses[..|uses| - 1] || key == uses[|uses| - 1];
    }
  }

  lemma {:induction false} WithoutKeepsOrder(list: Keys, key: string, i: nat, j: nat) returns (k: nat, l: nat)
    requires i < j < |Without(list, key)|
    ensures k < l < |list| && list[k] == Without(list, key)[i] && list[l] == Without(list, key)[j]
  {
    var rest, last := list[..|list| - 1], list[|list| - 1];
    if j < |Without(rest, key)| {
      k, l := WithoutKeepsOrder(rest, key, i, j);
    } else {
      var x := Without(rest, key)[i];
      WithoutHolds(rest, key, x);
      k :| 0 <= k < |rest| && rest[k] == x;
      l := |list| - 1;
    }
  }

  lemma ComesBeforeStays(list: Keys, some: Keys, key: string, a: string, b: string)
    requires a != key && b != key && ComesBefore(list, some, a, b)
    ensures ComesBefore(list, some + [key], a, b)
  {
    assert (some + [key])[..|some|] == some;
  }

  lemma UsedComesFirst(list: Keys, some: Keys, key: string, b: string)
    requires b != key
    ensures ComesBefore(list, some + [key], key, b)
  {
    assert (some + [key])[..|some|] == some;
    LastUseBound(some, b);
  }

  /** The unbounded list holds each key used or there at first, once, ordered by last use, newest first. */
  lemma {:induction false} NotedByLastUse(list: Keys, uses: Keys)
    requires Distinct(list)
    ensures Distinct(AllNoted(list, uses))
    ensures forall k :: k in AllNoted(list, uses) <==> k in list || k in uses
    ensures InOrder(AllNoted(list, uses), list, uses)
  {
    AllNotedIsDistinct(list, uses);
    if uses == [] {
      forall i, j | 0 <= i < j < |list| ensures ComesBefore(list, uses, list[i], list[j]) {
        assert PlaceOf(list, list[i]) == i && PlaceOf(list, list[j]) == j;
      }
    } else {
      var some, key := uses[..|uses| - 1], uses[|uses| - 1];
      var before, after := AllNoted(list, some), AllNoted(list, uses);
      NotedByLastUse(list, some);
      assert uses == some + [key];
      forall k ensures k in after <==> k in list || k in uses {
        WithoutHolds(before, key, k);
      }
      forall i, j | 0 <= i < j < |after| ensures ComesBefore(list, uses, after[i], after[j]) {
        OneMoreOrdered(list, some, key, i, j);
      }
    }
  }

  lemma OneMoreOrdered(list: Keys, some: Keys, key: string, i: nat, j: nat)
    requires Distinct(list) && InOrder(AllNoted(list, some), list, some)
    requires i < j < |Noted(AllNoted(list, some), key)|
    ensures var after := Noted(AllNoted(list, some), key);
      ComesBefore(list, some + [key], after[i], after[j])
  {
    var rest := Without(AllNoted(list, some), key);
    if i == 0 {
      WithoutHolds(AllNoted(list, some), key, rest[j - 1]);
      UsedComesFirst(list, some, key, rest[j - 1]);
    } else {
      OthersStayOrdered(list, some, key, i - 1, j - 1);
    }
  }

  lemma OthersStayOrdered(list: Keys, some: Keys, key: string, i: nat, j: nat)
    requires Distinct(list) && InOrder(AllNoted(list, some), list, some)
    requires i < j < |Without(AllNoted(list, some), key)|
    ensures var rest := Without(AllNoted(list, some), key);
      ComesBefore(list, some + [key], rest[i], rest[j])
  {
    var before := AllNoted(list, some);
    var rest := Without(before, key);
    WithoutHolds(before, key, rest[i]);
    WithoutHolds(before, key, rest[j]);
    var k, l := WithoutKeepsOrder(before, key, i, j);
    ComesBeforeStays(list, some, key, rest[i], rest[j]);
  }

  // ---- repairing and starring ----

  lemma {:induction false} DedupedIsDistinct(list: Keys)
    ensures Distinct(Deduped(list)) && (Distinct(list) ==> Deduped(list) == list)
    ensures forall k :: k in Deduped(list) <==> k in list
  {
    if list != [] {
      var rest, last := list[..|list| - 1], list[|list| - 1];
      DedupedIsDistinct(rest);
      InFront(list);
      if Distinct(list) {
        DistinctFront(list);
      }
    }
  }

  lemma InFront(list: Keys)
    requires list != []
    ensures forall k :: k in list <==> k in list[..|list| - 1] || k == list[|list| - 1]
  {
    assert list == list[..|list| - 1] + [list[|list| - 1]];
  }

  lemma DistinctFront(list: Keys)
    requires list != [] && Distinct(list)
    ensures Distinct(list[..|list| - 1]) && list[|list| - 1] !in list[..|list| - 1]
    ensures list[..|list| - 1] + [list[|list| - 1]] == list
  {
  }

  /** A repaired list has no repeats and fits; repairing it again changes nothing. */
  lemma RepairedOnce(list: Keys, limit: nat)
    ensures var once := FirstOf(Deduped(list), limit);
      Distinct(once) && |once| <= limit && FirstOf(Deduped(once), limit) == once
  {
    DedupedIsDistinct(list);
    DedupedIsDistinct(FirstOf(Deduped(list), limit));
  }

  lemma Unstarred(favorites: Keys, key: string)
    requires Distinct(favorites) && key in favorites
    ensures var once := Toggled(favorites, key);
      |once| == |favorites| - 1 && Distinct(once) && forall k :: k in once <==> k in favorites && k != key
  {
    var once, at := Toggled(favorites, key), PlaceOf(favorites, key);
    forall k ensures k in once <==> k in favorites && k != key {
      if k in favorites && k != key {
        var i :| 0 <= i < |favorites| && favorites[i] == k;
        assert once[if i < at then i else i - 1] == k;
      }
    }
  }

  /** Starring twice gives the list back exactly when the key was not starred, or was the last one. */
  lemma ToggledTwice(favorites: Keys, key: string)
    requires Distinct(favorites)
    ensures Toggled(Toggled(favorites, key), key) == favorites
       <==> key !in favorites || favorites[|favorites| - 1] == key
    ensures Distinct(Toggled(favorites, key))
    ensures forall k :: k in Toggled(favorites, key) <==> (k in favorites) != (k == key)
  {
    if key in favorites {
      Unstarred(favorites, key);
      StarredAgain(favorites, key);
    } else {
      StarredOnce(favorites, key);
    }
  }

  lemma StarredAgain(favorites: Keys, key: string)
    requires Distinct(favorites) && key in favorites && key !in Toggled(favorites, key)
    ensures Toggled(Toggled(favorites, key), key) == favorites <==> favorites[|favorites| - 1] == key
  {
    var once, at := Toggled(favorites, key), PlaceOf(favorites, key);
    assert Toggled(once, key) == once + [key] && |once| == |favorites| - 1;
    assert (once + [key])[|favorites| - 1] == key;
    if favorites[|favorites| - 1] == key {
      assert at == |favorites| - 1;
      assert once == favorites[..at];
    }
  }

  lemma StarredOnce(favorites: Keys, key: string)
    requires Distinct(favorites) && key !in favorites
    ensures Toggled(Toggled(favorites, key), key) == favorites && Distinct(Toggled(favorites, key))
  {
    var once := favorites + [key];
    assert once[|favorites|] == key;
    assert PlaceOf(once, key) == |favorites|;
    assert Toggled(once, key) == once[..|favorites|] + once[|favorites| + 1..];
  }

  /** A repair keeps each key where it first stands, up to its limit: 64 favorites, and 8 keys used last. */
  lemma WhatARepairKeeps(list: Keys, key: string, limit: nat)
    ensures Deduped([]) == [] && Deduped(list + [key]) == Deduped(list) + (if key in list then [] else [key])
    ensures FirstOf(Deduped(list), limit) == Deduped(list)[..(if |Deduped(list)| < limit then |Deduped(list)| else limit)]
    ensures MAX_FAVORITES == 64 && MAX_RECENT == 8
  {
    assert (list + [key])[..|list|] == list;
    DedupedIsDistinct(list);
    assert Deduped(list) + [] == Deduped(list);
  }
}

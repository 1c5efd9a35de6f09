/**
 * The bookkeeping of the byte-budgeted LRU index (lru/lru.go) as values:
 * the remaining budget `cap`, the size recorded for every indexed key, and
 * the recency list, most recent first. The class `Lru.Cache` is proved to
 * update its fields exactly as these functions say.
 */
module LruSpec {

  type Key = string

  /** The size recorded for `k`, or 0 when `k` is not indexed. */
  function SizeOf(sizes: map<Key, nat>, k: Key): nat
  {
    if k in sizes then sizes[k] else 0
  }

  /** The sum of the recorded sizes of the keys in `keys`. */
  function Total(keys: seq<Key>, sizes: map<Key, nat>): nat
  {
    if keys == [] then 0 else SizeOf(sizes, keys[0]) + Total(keys[1..], sizes)
  }

  predicate Distinct(keys: seq<Key>)
  {
    forall i, j :: 0 <= i < j < |keys| ==> keys[i] != keys[j]
  }

  /** The recency list with the element holding `k` unlinked (list.Remove). */
  function Without(keys: seq<Key>, k: Key): (r: seq<Key>)
    ensures forall x :: x in r <==> x in keys && x != k
    ensures |r| <= |keys|
    ensures k in keys ==> |r| < |keys|
  {
    if keys == [] then []
    else if keys[0] == k then Without(keys[1..], k)
    else [keys[0]] + Without(keys[1..], k)
  }

  /** The index state of a Cache: field `cap`, the sizes in `items`, and `list` front to back. */
  datatype Index = Index(budget: int, sizes: map<Key, nat>, order: seq<Key>)

  /**
   * The bookkeeping invariant for a cache created with `capacity`: the list
   * holds every indexed key exactly once and nothing else, and the budget is
   * the capacity minus the sizes of the indexed items.
   */
  ghost predicate Valid(ix: Index, capacity: int)
  {
    && Distinct(ix.order)
    && (forall k :: k in ix.sizes <==> k in ix.order)
    && ix.budget == capacity - Total(ix.order, ix.sizes)
  }

  /** The capacity invariant: within budget, or a single (oversized) item or none. */
  predicate WithinBudget(ix: Index)
  {
    ix.budget >= 0 || |ix.order| <= 1
  }

  /** The index built by New(c, cap). */
  function Empty(capacity: int): Index
  {
    Index(capacity, map[], [])
  }

  /** Get's bookkeeping (lru.go:46-51): an indexed key moves to the front. */
  function Touch(ix: Index, k: Key): Index
  {
    if k in ix.sizes then ix.(order := [k] + Without(ix.order, k)) else ix
  }

  /** The first half of Set (lru.go:62-72): record the new size and move or push `k` to the front. */
  function Insert(ix: Index, k: Key, n: nat): Index
  {
    if k in ix.sizes then
      var added := n - ix.sizes[k];
      Index(ix.budget - added, ix.sizes[k := n], [k] + Without(ix.order, k))
    else
      Index(ix.budget - n, ix.sizes[k := n], [k] + ix.order)
  }

  /** purge (lru.go:97-101): forget `k`, unlink it and refund its size. */
  function Purge(ix: Index, k: Key): Index
  {
    Index(ix.budget + SizeOf(ix.sizes, k), ix.sizes - {k}, Without(ix.order, k))
  }

  /**
   * The eviction loop of Set (lru.go:73-77): while the budget is negative and
   * more than one item is listed, purge the back of the list. Returns the
   * final index and the victims in the order they were taken.
   */
  function Evict(ix: Index): (Index, seq<Key>)
    decreases |ix.order|
  {
    if ix.budget < 0 && |ix.order| > 1 then
      var victim := ix.order[|ix.order| - 1];
      var after := Evict(Purge(ix, victim));
      (after.0, [victim] + after.1)
    else
      (ix, [])
  }

  /** Set's bookkeeping (lru.go:61-77): the new index and the keys to delete from the store. */
  function Set(ix: Index, k: Key, n: nat): (Index, seq<Key>)
  {
    Evict(Insert(ix, k, n))
  }

  /** Delete's bookkeeping (lru.go:88-91). */
  function Delete(ix: Index, k: Key): Index
  {
    if k in ix.sizes then Purge(ix, k) else ix
  }

  // ---------------------------------------------------------------------
  // Sums of sizes

  /** Sizes recorded for keys outside the sequence do not matter. */
  lemma {:induction false} TotalOutside(s: seq<Key>, m: map<Key, nat>, k: Key, v: nat)
    requires k !in s
    ensures Total(s, m[k := v]) == Total(s, m)
    ensures Total(s, m - {k}) == Total(s, m)
  {
    if s != [] {
      assert s[0] != k;
      TotalOutside(s[1..], m, k, v);
    }
  }

  lemma {:induction false} WithoutAbsent(s: seq<Key>, k: Key)
    requires k !in s
    ensures Without(s, k) == s
  {
    if s != [] {
      WithoutAbsent(s[1..], k);
      assert [s[0]] + s[1..] == s;
    }
  }

  /** Unlinking an indexed key takes exactly its size out of the sum. */
  lemma {:induction false} TotalWithout(s: seq<Key>, m: map<Key, nat>, k: Key)
    requires Distinct(s) && k in s
    ensures Total(s, m) == Total(Without(s, k), m) + SizeOf(m, k)
  {
    assert s[0] in s;
    if s[0] == k {
      HeadNotInTail(s);
      WithoutAbsent(s[1..], k);
    } else {
      DistinctTail(s);
      TotalWithout(s[1..], m, k);
      var w := Without(s[1..], k);
      assert Without(s, k) == [s[0]] + w;
      assert ([s[0]] + w)[1..] == w;
    }
  }

  /**
   * Unlinking a listed key from a duplicate-free list cuts out exactly its
   * element: the keys before it and the keys after it keep their order.
   */
  lemma {:induction false} WithoutCuts(s: seq<Key>, p: nat)
    requires Distinct(s) && p < |s|
    ensures Without(s, s[p]) == s[..p] + s[p + 1..]
  {
    var t := s[1..];
    if p == 0 {
      HeadNotInTail(s);
      WithoutAbsent(t, s[0]);
    } else {
      DistinctTail(s);
      var k := s[p];
      assert s[0] != k;
      assert t[p - 1] == k;
      WithoutCuts(t, p - 1);
      calc {
        Without(s, k);
        [s[0]] + Without(t, k);
        [s[0]] + (t[..p - 1] + t[p..]);
        { assert [s[0]] + t[..p - 1] == s[..p]; assert t[p..] == s[p + 1..]; }
        s[..p] + s[p + 1..];
      }
    }
  }

  /** The head of a duplicate-free list does not occur in its tail. */
  lemma HeadNotInTail(s: seq<Key>)
    requires Distinct(s) && |s| > 0
    ensures s[0] !in s[1..]
  {
    forall i | 0 <= i < |s[1..]| ensures s[1..][i] != s[0] {
      assert s[1..][i] == s[i + 1];
    }
  }

  /** The tail of a duplicate-free list is duplicate-free. */
  lemma DistinctTail(s: seq<Key>)
    requires Distinct(s) && |s| > 0
    ensures Distinct(s[1..])
  {
    var t := s[1..];
    forall i, j | 0 <= i < j < |t| ensures t[i] != t[j] {
      assert t[i] == s[i + 1] && t[j] == s[j + 1];
    }
  }

  /** Unlinking the back of a duplicate-free list drops its last element. */
  lemma {:induction false} WithoutLast(s: seq<Key>)
    requires Distinct(s) && |s| > 0
    ensures Without(s, s[|s| - 1]) == s[..|s| - 1]
  {
    var last := s[|s| - 1];
    if |s| == 1 {
      assert Without(s, last) == Without(s[1..], last);
    } else {
      assert s[0] != last;
      DistinctTail(s);
      assert s[1..][|s[1..]| - 1] == last;
      WithoutLast(s[1..]);
      assert Without(s, last) == [s[0]] + s[1..][..|s| - 2];
      assert [s[0]] + s[1..][..|s| - 2] == s[..|s| - 1];
    }
  }

  /** Unlinking keeps a duplicate-free list duplicate-free and takes out one element. */
  lemma {:induction false} WithoutDistinct(s: seq<Key>, k: Key)
    requires Distinct(s)
    ensures Distinct(Without(s, k))
    ensures k in s ==> |Without(s, k)| == |s| - 1
  {
    if s != [] {
      DistinctTail(s);
      WithoutDistinct(s[1..], k);
      var w := Without(s[1..], k);
      HeadNotInTail(s);
      if s[0] == k {
        WithoutAbsent(s[1..], k);
      } else {
        assert s[0] !in w;
        var r := [s[0]] + w;
        assert Distinct(r) by {
          forall i, j | 0 <= i < j < |r| ensures r[i] != r[j] {
            assert r[j] == w[j - 1];
            if i > 0 {
              assert r[i] == w[i - 1];
            }
          }
        }
      }
    }
  }

  // ---------------------------------------------------------------------
  // The operations keep the bookkeeping invariant

  lemma EmptyValid(capacity: int)
    ensures Valid(Empty(capacity), capacity) && WithinBudget(Empty(capacity))
  {
  }

  /**
   * Set of a new key pushes it to the front and lowers the budget by its size;
   * Set of an indexed key moves it to the front, records the new size and
   * changes the budget by old size - new size. Either way the invariant holds.
   */
  lemma InsertValid(ix: Index, capacity: int, k: Key, n: nat)
    requires Valid(ix, capacity)
    ensures Valid(Insert(ix, k, n), capacity)
    ensures Insert(ix, k, n).order == [k] + Without(ix.order, k)
    ensures Insert(ix, k, n).sizes == ix.sizes[k := n]
    ensures Insert(ix, k, n).budget == ix.budget - n + SizeOf(ix.sizes, k)
  {
    var r := Insert(ix, k, n);
    var w := Without(ix.order, k);
    WithoutDistinct(ix.order, k);

    if k in ix.sizes {
      TotalWithout(ix.order, ix.sizes, k);
    } else {
      WithoutAbsent(ix.order, k);
    }
    assert k !in w;
    TotalOutside(w, ix.sizes, k, n);
    assert r.order == [k] + w;
    assert ([k] + w)[1..] == w;
    assert Total(r.order, r.sizes) == n + Total(w, ix.sizes);
    assert Distinct(r.order) by {
      forall i, j | 0 <= i < j < |r.order| ensures r.order[i] != r.order[j] {
        assert r.order[j] == w[j - 1];
        if i > 0 {
          assert r.order[i] == w[i - 1];
        }
      }
    }
  }

  /** purge refunds exactly the purged item's size and keeps the invariant. */
  lemma PurgeValid(ix: Index, capacity: int, k: Key)
    requires Valid(ix, capacity)
    ensures Valid(Purge(ix, k), capacity)
    ensures k !in Purge(ix, k).sizes
    ensures Purge(ix, k).budget == ix.budget + SizeOf(ix.sizes, k)
    ensures k in ix.sizes ==> |Purge(ix, k).order| == |ix.order| - 1
  {
    var w := Without(ix.order, k);
    WithoutDistinct(ix.order, k);
    if k in ix.order {
      TotalWithout(ix.order, ix.sizes, k);
    } else {
      WithoutAbsent(ix.order, k);
    }
    TotalOutside(w, ix.sizes, k, 0);
  }

  /** Get keeps sizes and budget, moves an indexed key to the front, and changes nothing on a miss. */
  lemma TouchValid(ix: Index, capacity: int, k: Key)
    requires Valid(ix, capacity)
    ensures Valid(Touch(ix, k), capacity)
    ensures Touch(ix, k).budget == ix.budget && Touch(ix, k).sizes == ix.sizes
    ensures |Touch(ix, k).order| == |ix.order|
    ensures k in ix.sizes ==> Touch(ix, k).order[0] == k
    ensures k !in ix.sizes ==> Touch(ix, k) == ix
  {
    if k in ix.sizes {
      InsertValid(ix, capacity, k, ix.sizes[k]);
      WithoutDistinct(ix.order, k);
      assert ix.sizes[k := ix.sizes[k]] == ix.sizes;
      assert Touch(ix, k) == Insert(ix, k, ix.sizes[k]);
    }
  }

  /**
   * The recency order Set leaves before eviction: a new key is pushed in
   * front of the whole list, and an indexed key at position p moves to the
   * front while every other key keeps its place relative to the rest.
   */
  lemma InsertKeepsOrder(ix: Index, capacity: int, k: Key, n: nat)
    requires Valid(ix, capacity)
    ensures k !in ix.sizes ==> Insert(ix, k, n).order == [k] + ix.order
    ensures forall p :: 0 <= p < |ix.order| && ix.order[p] == k ==>
      Insert(ix, k, n).order == [k] + ix.order[..p] + ix.order[p + 1..]
  {
    forall p | 0 <= p < |ix.order| && ix.order[p] == k
      ensures Insert(ix, k, n).order == [k] + ix.order[..p] + ix.order[p + 1..]
    {
      WithoutCuts(ix.order, p);
    }
  }

  /** Get's MoveToFront: the hit key leaves position p for the front, and the others keep their order. */
  lemma TouchKeepsOrder(ix: Index, capacity: int, k: Key)
    requires Valid(ix, capacity)
    ensures forall p :: 0 <= p < |ix.order| && ix.order[p] == k ==>
      Touch(ix, k).order == [k] + ix.order[..p] + ix.order[p + 1..]
  {
    forall p | 0 <= p < |ix.order| && ix.order[p] == k
      ensures Touch(ix, k).order == [k] + ix.order[..p] + ix.order[p + 1..]
    {
      assert k in ix.order;
      assert Touch(ix, k).order == [k] + Without(ix.order, k);
      WithoutCuts(ix.order, p);
    }
  }

  /** Delete removes the key and refunds its size; a second Delete changes nothing. */
  lemma DeleteValid(ix: Index, capacity: int, k: Key)
    requires Valid(ix, capacity)
    ensures Valid(Delete(ix, k), capacity)
    ensures Delete(ix, k).sizes == ix.sizes - {k}
    ensures Delete(ix, k).budget == ix.budget + SizeOf(ix.sizes, k)
    ensures |Delete(ix, k).order| <= |ix.order|
    ensures Delete(Delete(ix, k), k) == Delete(ix, k)
  {
    if k in ix.sizes {
      PurgeValid(ix, capacity, k);
    } else {
      assert ix.sizes - {k} == ix.sizes;
    }
  }

  // ---------------------------------------------------------------------
  // The eviction loop

  /** `victims` are the last elements of `order`, read from the back. */
  ghost predicate TakenFromBack(victims: seq<Key>, order: seq<Key>)
  {
    && |victims| <= |order|
    && forall j {:trigger victims[j]} :: 0 <= j < |victims| ==> victims[j] == order[|order| - 1 - j]
  }

  lemma {:induction false} EvictValid(ix: Index, capacity: int)
    requires Valid(ix, capacity)
    ensures Valid(Evict(ix).0, capacity)
    decreases |ix.order|
  {
    if ix.budget < 0 && |ix.order| > 1 {
      var victim := ix.order[|ix.order| - 1];
      PurgeValid(ix, capacity, victim);
      EvictValid(Purge(ix, victim), capacity);
    }
  }

  /** The loop stops within budget or with a single item, and never empties a non-empty list. */
  lemma {:induction false} EvictStops(ix: Index)
    requires Distinct(ix.order)
    ensures WithinBudget(Evict(ix).0)
    ensures |ix.order| > 0 ==> |Evict(ix).0.order| > 0
    decreases |ix.order|
  {
    if ix.budget < 0 && |ix.order| > 1 {
      var victim := ix.order[|ix.order| - 1];
      WithoutDistinct(ix.order, victim);
      EvictStops(Purge(ix, victim));
    }
  }

  /** One turn of the eviction loop: the back element is purged and becomes the first victim. */
  lemma EvictStep(ix: Index)
    requires Distinct(ix.order) && ix.budget < 0 && |ix.order| > 1
    ensures var victim := ix.order[|ix.order| - 1];
      var p := Purge(ix, victim);
      && Evict(ix).0 == Evict(p).0
      && Evict(ix).1 == [victim] + Evict(p).1
      && p.order == ix.order[..|ix.order| - 1]
      && Distinct(p.order)
      && victim !in p.order
      && p.budget == ix.budget + SizeOf(ix.sizes, victim)
      && p.sizes == ix.sizes - {victim}
  {
    WithoutLast(ix.order);
    WithoutDistinct(ix.order, ix.order[|ix.order| - 1]);
  }

  /**
   * One turn of the eviction loop: if `victims` were taken on the way from
   * `start` to `ix`, purging the back of `ix` extends them by that key and
   * leaves the final state of the whole run unchanged.
   */
  lemma EvictAccumulates(start: Index, ix: Index, victims: seq<Key>)
    requires Distinct(ix.order) && ix.budget < 0 && |ix.order| > 1
    requires Evict(start) == (Evict(ix).0, victims + Evict(ix).1)
    ensures var p := Purge(ix, ix.order[|ix.order| - 1]);
      Evict(start) == (Evict(p).0, (victims + [ix.order[|ix.order| - 1]]) + Evict(p).1)
  {
    EvictStep(ix);
    var victim := ix.order[|ix.order| - 1];
    var rest := Evict(Purge(ix, victim)).1;
    assert victims + ([victim] + rest) == (victims + [victim]) + rest;
  }

  lemma TakenFromBackCons(victim: Key, vs: seq<Key>, order: seq<Key>)
    requires |order| > 0 && victim == order[|order| - 1]
    requires TakenFromBack(vs, order[..|order| - 1])
    ensures TakenFromBack([victim] + vs, order)
  {
    var all := [victim] + vs;
    forall j | 0 <= j < |all| ensures all[j] == order[|order| - 1 - j] {
      if j > 0 {
        assert all[j] == vs[j - 1];
      }
    }
  }

  lemma TakenFromBackMembers(vs: seq<Key>, order: seq<Key>, x: Key)
    requires TakenFromBack(vs, order) && x !in order
    ensures x !in vs
  {
    forall j | 0 <= j < |vs| ensures vs[j] != x {
      assert vs[j] == order[|order| - 1 - j];
    }
  }

  /**
   * Victims are taken from the back of the list, least recent first: the
   * list that remains is a prefix of the one the loop started from, and the
   * victims are the rest of it read back to front.
   */
  lemma {:induction false} EvictFromBack(ix: Index)
    requires Distinct(ix.order)
    ensures TakenFromBack(Evict(ix).1, ix.order)
    ensures Evict(ix).0.order == ix.order[..|ix.order| - |Evict(ix).1|]
    decreases |ix.order|
  {
    if ix.budget < 0 && |ix.order| > 1 {
      var n := |ix.order|;
      var victim := ix.order[n - 1];
      var p := Purge(ix, victim);
      EvictStep(ix);
      EvictFromBack(p);
      TakenFromBackCons(victim, Evict(p).1, ix.order);
      assert ix.order[..n - 1][..n - 1 - |Evict(p).1|] == ix.order[..n - |Evict(ix).1|];
    }
  }

  /**
   * Each purge refunds its victim's size: the final budget is the starting
   * budget plus the victims' sizes, the victims leave the index and nothing
   * else does.
   */
  lemma {:induction false} EvictRefunds(ix: Index)
    requires Distinct(ix.order)
    ensures Evict(ix).0.budget == ix.budget + Total(Evict(ix).1, ix.sizes)
    decreases |ix.order|
  {
    if ix.budget < 0 && |ix.order| > 1 {
      var victim := ix.order[|ix.order| - 1];
      var p := Purge(ix, victim);
      EvictStep(ix);
      EvictFromBack(p);
      EvictRefunds(p);
      var vs := Evict(p).1;
      var all := [victim] + vs;
      TakenFromBackMembers(vs, p.order, victim);
      TotalOutside(vs, ix.sizes, victim, 0);
      assert all[1..] == vs;
    }
  }

  /** The victims leave the index, and every other item keeps its recorded size. */
  lemma {:induction false} EvictForgetsVictims(ix: Index)
    requires Distinct(ix.order)
    ensures Evict(ix).0.sizes == ix.sizes - (set v | v in Evict(ix).1)
    decreases |ix.order|
  {
    if ix.budget < 0 && |ix.order| > 1 {
      var victim := ix.order[|ix.order| - 1];
      var p := Purge(ix, victim);
      var vs := Evict(p).1;
      assert Distinct(p.order) && Evict(ix) == (Evict(p).0, [victim] + vs) by {
        EvictStep(ix);
      }
      EvictForgetsVictims(p);
      assert (set v | v in [victim] + vs) == {victim} + (set v | v in vs);
    }
  }

  /** A victim is taken only while the budget, after refunding the earlier victims, is still negative. */
  lemma {:induction false} EvictOnlyWhileOver(ix: Index)
    requires Distinct(ix.order)
    ensures forall j :: 0 <= j < |Evict(ix).1| ==> ix.budget + Total(Evict(ix).1[..j], ix.sizes) < 0
    decreases |ix.order|
  {
    if ix.budget < 0 && |ix.order| > 1 {
      var victim := ix.order[|ix.order| - 1];
      var p := Purge(ix, victim);
      EvictStep(ix);
      EvictFromBack(p);
      EvictOnlyWhileOver(p);
      var vs := Evict(p).1;
      var all := [victim] + vs;
      TakenFromBackMembers(vs, p.order, victim);
      forall j | 0 <= j < |all|
        ensures ix.budget + Total(all[..j], ix.sizes) < 0
      {
        if j > 0 {
          assert all[..j][0] == victim && all[..j][1..] == vs[..j - 1];
          assert victim !in vs[..j - 1];
          TotalOutside(vs[..j - 1], ix.sizes, victim, 0);
          assert p.budget + Total(vs[..j - 1], p.sizes) < 0;
        }
      }
    }
  }

  // ---------------------------------------------------------------------
  // Set

  /**
   * Set keeps the invariant and leaves the index within budget or holding
   * exactly one item (an oversized item is kept, not rejected). The key just
   * written is at the front with its new size and is never a victim.
   */
  lemma SetValid(ix: Index, capacity: int, k: Key, n: nat)
    requires Valid(ix, capacity)
    ensures Valid(Set(ix, k, n).0, capacity)
    ensures Set(ix, k, n).0.budget >= 0 || |Set(ix, k, n).0.order| == 1
    ensures Set(ix, k, n).0.order != [] && Set(ix, k, n).0.order[0] == k
    ensures k in Set(ix, k, n).0.sizes && Set(ix, k, n).0.sizes[k] == n
    ensures k !in Set(ix, k, n).1
  {
    var t := Insert(ix, k, n);
    InsertValid(ix, capacity, k, n);
    EvictValid(t, capacity);
    EvictStops(t);
    EvictFromBack(t);
    EvictForgetsVictims(t);
    var r := Evict(t).0;
    var victims := Evict(t).1;
    assert Set(ix, k, n) == (r, victims);
    assert r.order[0] == t.order[0] == k;
    forall j | 0 <= j < |victims| ensures victims[j] != k {
      assert |t.order| - 1 - j > 0;
      assert t.order[|t.order| - 1 - j] != t.order[0];
    }
    assert r.sizes == t.sizes - (set v | v in victims);
  }

  /**
   * The victims of Set come off the back of the list as it stood after the
   * insert, and each one refunds its size.
   */
  lemma SetVictims(ix: Index, capacity: int, k: Key, n: nat)
    requires Valid(ix, capacity)
    ensures var t := Insert(ix, k, n);
      var victims := Set(ix, k, n).1;
      && TakenFromBack(victims, t.order)
      && Set(ix, k, n).0.order == t.order[..|t.order| - |victims|]
      && Set(ix, k, n).0.budget == t.budget + Total(victims, t.sizes)
  {
    var t := Insert(ix, k, n);
    assert Distinct(t.order) by {
      InsertValid(ix, capacity, k, n);
    }
    EvictFromBack(t);
    EvictRefunds(t);
  }

  /** The keys indexed after Set are the old ones plus the key written, minus the victims. */
  lemma SetKeys(ix: Index, capacity: int, k: Key, n: nat)
    requires Valid(ix, capacity)
    ensures Set(ix, k, n).0.sizes.Keys == (ix.sizes.Keys + {k}) - (set v | v in Set(ix, k, n).1)
  {
    var t := Insert(ix, k, n);
    var e := Evict(t);
    var gone := set v | v in e.1;
    assert e.0.sizes == t.sizes - gone by {
      assert Distinct(t.order) by {
        InsertValid(ix, capacity, k, n);
      }
      EvictForgetsVictims(t);
    }
    assert t.sizes.Keys == ix.sizes.Keys + {k};
    KeysMinus(t.sizes, gone);
  }

  lemma KeysMinus(m: map<Key, nat>, gone: set<Key>)
    ensures (m - gone).Keys == m.Keys - gone
  {
  }

  /** Set, Get and Delete establish or preserve the capacity invariant. */
  lemma OperationsWithinBudget(ix: Index, capacity: int, k: Key, n: nat)
    requires Valid(ix, capacity) && WithinBudget(ix)
    ensures WithinBudget(Set(ix, k, n).0)
    ensures WithinBudget(Touch(ix, k))
    ensures WithinBudget(Delete(ix, k))
  {
    SetValid(ix, capacity, k, n);
    TouchValid(ix, capacity, k);
    DeleteValid(ix, capacity, k);
  }
}

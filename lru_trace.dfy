/**
 * The scenarios of lru/lru_test.go replayed on the bookkeeping model of a
 * cache created with a capacity of 10 bytes. The LRU layer looks only at
 * the length of a value, so each Set is given the number of bytes written.
 * Each TestSet row states the whole index after the call (its keys front
 * to back are the row's "present" list, and the row's "absent" keys are
 * among the victims or were never indexed) and the victims in the order
 * the store is asked to delete them.
 */
module LruTrace {
  import opened LruSpec

  /** One turn of the eviction loop, stated on indexes the solver need not unfold. */
  lemma EvictTurn(ix: Index, p: Index, rest: (Index, seq<Key>))
    requires ix.budget < 0 && |ix.order| > 1
    requires Purge(ix, ix.order[|ix.order| - 1]) == p && Evict(p) == rest
    ensures Evict(ix) == (rest.0, [ix.order[|ix.order| - 1]] + rest.1)
  {
  }

  /** TestSet row 1: Set("key1") with 4 bytes; the indexed keys are then ["key1"]. */
  lemma {:induction false} TestSetRow1()
    ensures Set(Empty(10), "key1", 4)
         == (Index(6, map["key1" := 4], ["key1"]), [])
  {
    var t0 := Index(6, map["key1" := 4], ["key1"]);
    assert Insert(Empty(10), "key1", 4) == t0;
    assert Evict(t0) == (t0, []);
  }

  /** TestSet row 2: Set("key2") with 4 bytes; the indexed keys are then ["key2", "key1"]. */
  lemma {:induction false} TestSetRow2()
    ensures Set(Index(6, map["key1" := 4], ["key1"]), "key2", 4)
         == (Index(2, map["key1" := 4, "key2" := 4], ["key2", "key1"]), [])
  {
    var t0 := Index(2, map["key1" := 4, "key2" := 4], ["key2", "key1"]);
    assert Insert(Index(6, map["key1" := 4], ["key1"]), "key2", 4) == t0;
    assert Evict(t0) == (t0, []);
  }

  /** TestSet row 3, eviction 1: "key1" leaves from the back. */
  lemma {:induction false} TestSetRow3Evicts1()
    ensures Purge(Index(-2, map["key1" := 4, "key2" := 4, "key3" := 4], ["key3", "key2", "key1"]), "key1")
         == Index(2, map["key2" := 4, "key3" := 4], ["key3", "key2"])
  {
    var p := Purge(Index(-2, map["key1" := 4, "key2" := 4, "key3" := 4], ["key3", "key2", "key1"]), "key1");
    assert p.order == ["key3", "key2"] by {
      assert Without(["key3", "key2", "key1"], "key1") == ["key3", "key2"];
    }
    assert p.sizes == map["key2" := 4, "key3" := 4];
  }

  /** TestSet row 3: Set("key3") with 4 bytes; the indexed keys are then ["key3", "key2"]. */
  lemma {:induction false} TestSetRow3()
    ensures Set(Index(2, map["key1" := 4, "key2" := 4], ["key2", "key1"]), "key3", 4)
         == (Index(2, map["key2" := 4, "key3" := 4], ["key3", "key2"]), ["key1"])
  {
    var t0 := Index(-2, map["key1" := 4, "key2" := 4, "key3" := 4], ["key3", "key2", "key1"]);
    var t1 := Index(2, map["key2" := 4, "key3" := 4], ["key3", "key2"]);
    assert Insert(Index(2, map["key1" := 4, "key2" := 4], ["key2", "key1"]), "key3", 4) == t0;
    TestSetRow3Evicts1();
    assert Evict(t1) == (t1, []);
    EvictTurn(t0, t1, (t1, []));
    assert ["key1"] + [] == ["key1"];
  }

  /** TestSet row 4, eviction 1: "key2" leaves from the back. */
  lemma {:induction false} TestSetRow4Evicts1()
    ensures Purge(Index(-4, map["key2" := 4, "key3" := 4, "key4" := 6], ["key4", "key3", "key2"]), "key2")
         == Index(0, map["key3" := 4, "key4" := 6], ["key4", "key3"])
  {
    var p := Purge(Index(-4, map["key2" := 4, "key3" := 4, "key4" := 6], ["key4", "key3", "key2"]), "key2");
    assert p.order == ["key4", "key3"] by {
      assert Without(["key4", "key3", "key2"], "key2") == ["key4", "key3"];
    }
    assert p.sizes == map["key3" := 4, "key4" := 6];
  }

  /** TestSet row 4: Set("key4") with 6 bytes; the indexed keys are then ["key4", "key3"]. */
  lemma {:induction false} TestSetRow4()
    ensures Set(Index(2, map["key2" := 4, "key3" := 4], ["key3", "key2"]), "key4", 6)
         == (Index(0, map["key3" := 4, "key4" := 6], ["key4", "key3"]), ["key2"])
  {
    var t0 := Index(-4, map["key2" := 4, "key3" := 4, "key4" := 6], ["key4", "key3", "key2"]);
    var t1 := Index(0, map["key3" := 4, "key4" := 6], ["key4", "key3"]);
    assert Insert(Index(2, map["key2" := 4, "key3" := 4], ["key3", "key2"]), "key4", 6) == t0;
    TestSetRow4Evicts1();
    assert Evict(t1) == (t1, []);
    EvictTurn(t0, t1, (t1, []));
    assert ["key2"] + [] == ["key2"];
  }

  /** TestSet row 5, eviction 1: "key3" leaves from the back. */
  lemma {:induction false} TestSetRow5Evicts1()
    ensures Purge(Index(-12, map["key3" := 4, "key4" := 6, "key5" := 12], ["key5", "key4", "key3"]), "key3")
         == Index(-8, map["key4" := 6, "key5" := 12], ["key5", "key4"])
  {
    var p := Purge(Index(-12, map["key3" := 4, "key4" := 6, "key5" := 12], ["key5", "key4", "key3"]), "key3");
    assert p.order == ["key5", "key4"] by {
      assert Without(["key5", "key4", "key3"], "key3") == ["key5", "key4"];
    }
    assert p.sizes == map["key4" := 6, "key5" := 12];
  }

  /** TestSet row 5, eviction 2: "key4" leaves from the back. */
  lemma {:induction false} TestSetRow5Evicts2()
    ensures Purge(Index(-8, map["key4" := 6, "key5" := 12], ["key5", "key4"]), "key4")
         == Index(-2, map["key5" := 12], ["key5"])
  {
    var p := Purge(Index(-8, map["key4" := 6, "key5" := 12], ["key5", "key4"]), "key4");
    assert p.order == ["key5"] by {
      assert Without(["key5", "key4"], "key4") == ["key5"];
    }
    assert p.sizes == map["key5" := 12];
  }

  /** TestSet row 5: Set("key5") with 12 bytes; the indexed keys are then ["key5"]. */
  lemma {:induction false} TestSetRow5()
    ensures Set(Index(0, map["key3" := 4, "key4" := 6], ["key4", "key3"]), "key5", 12)
         == (Index(-2, map["key5" := 12], ["key5"]), ["key3", "key4"])
  {
    var t0 := Index(-12, map["key3" := 4, "key4" := 6, "key5" := 12], ["key5", "key4", "key3"]);
    var t1 := Index(-8, map["key4" := 6, "key5" := 12], ["key5", "key4"]);
    var t2 := Index(-2, map["key5" := 12], ["key5"]);
    assert Insert(Index(0, map["key3" := 4, "key4" := 6], ["key4", "key3"]), "key5", 12) == t0;
    TestSetRow5Evicts1();
    TestSetRow5Evicts2();
    assert Evict(t2) == (t2, []);
    EvictTurn(t1, t2, (t2, []));
    assert ["key4"] + [] == ["key4"];
    EvictTurn(t0, t1, (t2, ["key4"]));
    assert ["key3"] + ["key4"] == ["key3", "key4"];
  }

  /** TestSet row 6, eviction 1: "key5" leaves from the back. */
  lemma {:induction false} TestSetRow6Evicts1()
    ensures Purge(Index(-3, map["key5" := 12, "key6" := 1], ["key6", "key5"]), "key5")
         == Index(9, map["key6" := 1], ["key6"])
  {
    var p := Purge(Index(-3, map["key5" := 12, "key6" := 1], ["key6", "key5"]), "key5");
    assert p.order == ["key6"] by {
      assert Without(["key6", "key5"], "key5") == ["key6"];
    }
    assert p.sizes == map["key6" := 1];
  }

  /** TestSet row 6: Set("key6") with 1 bytes; the indexed keys are then ["key6"]. */
  lemma {:induction false} TestSetRow6()
    ensures Set(Index(-2, map["key5" := 12], ["key5"]), "key6", 1)
         == (Index(9, map["key6" := 1], ["key6"]), ["key5"])
  {
    var t0 := Index(-3, map["key5" := 12, "key6" := 1], ["key6", "key5"]);
    var t1 := Index(9, map["key6" := 1], ["key6"]);
    assert Insert(Index(-2, map["key5" := 12], ["key5"]), "key6", 1) == t0;
    TestSetRow6Evicts1();
    assert Evict(t1) == (t1, []);
    EvictTurn(t0, t1, (t1, []));
    assert ["key5"] + [] == ["key5"];
  }

  /** TestSet row 7: Set("key7") with 1 bytes; the indexed keys are then ["key7", "key6"]. */
  lemma {:induction false} TestSetRow7()
    ensures Set(Index(9, map["key6" := 1], ["key6"]), "key7", 1)
         == (Index(8, map["key6" := 1, "key7" := 1], ["key7", "key6"]), [])
  {
    var t0 := Index(8, map["key6" := 1, "key7" := 1], ["key7", "key6"]);
    assert Insert(Index(9, map["key6" := 1], ["key6"]), "key7", 1) == t0;
    assert Evict(t0) == (t0, []);
  }

  /** TestSet row 8: Set("key8") with 8 bytes; the indexed keys are then ["key8", "key7", "key6"]. */
  lemma {:induction false} TestSetRow8()
    ensures Set(Index(8, map["key6" := 1, "key7" := 1], ["key7", "key6"]), "key8", 8)
         == (Index(0, map["key6" := 1, "key7" := 1, "key8" := 8], ["key8", "key7", "key6"]), [])
  {
    var t0 := Index(0, map["key6" := 1, "key7" := 1, "key8" := 8], ["key8", "key7", "key6"]);
    assert Insert(Index(8, map["key6" := 1, "key7" := 1], ["key7", "key6"]), "key8", 8) == t0;
    assert Evict(t0) == (t0, []);
  }

  /** TestSet row 9: Set("key7") with 1 bytes; the indexed keys are then ["key7", "key8", "key6"]. */
  lemma {:induction false} TestSetRow9()
    ensures Set(Index(0, map["key6" := 1, "key7" := 1, "key8" := 8], ["key8", "key7", "key6"]), "key7", 1)
         == (Index(0, map["key6" := 1, "key7" := 1, "key8" := 8], ["key7", "key8", "key6"]), [])
  {
    var t0 := Index(0, map["key6" := 1, "key7" := 1, "key8" := 8], ["key7", "key8", "key6"]);
    assert Insert(Index(0, map["key6" := 1, "key7" := 1, "key8" := 8], ["key8", "key7", "key6"]), "key7", 1) == t0 by {
      assert Without(["key8", "key7", "key6"], "key7") == ["key8", "key6"];
    }
    assert Evict(t0) == (t0, []);
  }

  /** TestSet row 10, eviction 1: "key6" leaves from the back. */
  lemma {:induction false} TestSetRow10Evicts1()
    ensures Purge(Index(-1, map["key6" := 1, "key7" := 1, "key8" := 8, "key9" := 1], ["key9", "key7", "key8", "key6"]), "key6")
         == Index(0, map["key7" := 1, "key8" := 8, "key9" := 1], ["key9", "key7", "key8"])
  {
    var p := Purge(Index(-1, map["key6" := 1, "key7" := 1, "key8" := 8, "key9" := 1], ["key9", "key7", "key8", "key6"]), "key6");
    assert p.order == ["key9", "key7", "key8"] by {
      assert Without(["key9", "key7", "key8", "key6"], "key6") == ["key9", "key7", "key8"];
    }
    assert p.sizes == map["key7" := 1, "key8" := 8, "key9" := 1];
  }

  /** TestSet row 10: Set("key9") with 1 bytes; the indexed keys are then ["key9", "key7", "key8"]. */
  lemma {:induction false} TestSetRow10()
    ensures Set(Index(0, map["key6" := 1, "key7" := 1, "key8" := 8], ["key7", "key8", "key6"]), "key9", 1)
         == (Index(0, map["key7" := 1, "key8" := 8, "key9" := 1], ["key9", "key7", "key8"]), ["key6"])
  {
    var t0 := Index(-1, map["key6" := 1, "key7" := 1, "key8" := 8, "key9" := 1], ["key9", "key7", "key8", "key6"]);
    var t1 := Index(0, map["key7" := 1, "key8" := 8, "key9" := 1], ["key9", "key7", "key8"]);
    assert Insert(Index(0, map["key6" := 1, "key7" := 1, "key8" := 8], ["key7", "key8", "key6"]), "key9", 1) == t0;
    TestSetRow10Evicts1();
    assert Evict(t1) == (t1, []);
    EvictTurn(t0, t1, (t1, []));
    assert ["key6"] + [] == ["key6"];
  }

  /** TestSet row 11, eviction 1: "key7" leaves from the back. */
  lemma {:induction false} TestSetRow11Evicts1()
    ensures Purge(Index(-1, map["key7" := 1, "key8" := 9, "key9" := 1], ["key8", "key9", "key7"]), "key7")
         == Index(0, map["key8" := 9, "key9" := 1], ["key8", "key9"])
  {
    var p := Purge(Index(-1, map["key7" := 1, "key8" := 9, "key9" := 1], ["key8", "key9", "key7"]), "key7");
    assert p.order == ["key8", "key9"] by {
      assert Without(["key8", "key9", "key7"], "key7") == ["key8", "key9"];
    }
    assert p.sizes == map["key8" := 9, "key9" := 1];
  }

  /** TestSet row 11: Set("key8") with 9 bytes; the indexed keys are then ["key8", "key9"]. */
  lemma {:induction false} TestSetRow11()
    ensures Set(Index(0, map["key7" := 1, "key8" := 8, "key9" := 1], ["key9", "key7", "key8"]), "key8", 9)
         == (Index(0, map["key8" := 9, "key9" := 1], ["key8", "key9"]), ["key7"])
  {
    var t0 := Index(-1, map["key7" := 1, "key8" := 9, "key9" := 1], ["key8", "key9", "key7"]);
    var t1 := Index(0, map["key8" := 9, "key9" := 1], ["key8", "key9"]);
    assert Insert(Index(0, map["key7" := 1, "key8" := 8, "key9" := 1], ["key9", "key7", "key8"]), "key8", 9) == t0 by {
      assert Without(["key9", "key7", "key8"], "key8") == ["key9", "key7"];
    }
    TestSetRow11Evicts1();
    assert Evict(t1) == (t1, []);
    EvictTurn(t0, t1, (t1, []));
    assert ["key7"] + [] == ["key7"];
  }

  /** TestSet row 12, eviction 1: "key9" leaves from the back. */
  lemma {:induction false} TestSetRow12Evicts1()
    ensures Purge(Index(-1, map["key8" := 9, "key9" := 1, "key10" := 1], ["key10", "key8", "key9"]), "key9")
         == Index(0, map["key8" := 9, "key10" := 1], ["key10", "key8"])
  {
    var p := Purge(Index(-1, map["key8" := 9, "key9" := 1, "key10" := 1], ["key10", "key8", "key9"]), "key9");
    assert p.order == ["key10", "key8"] by {
      assert Without(["key10", "key8", "key9"], "key9") == ["key10", "key8"];
    }
    assert p.sizes == map["key8" := 9, "key10" := 1];
  }

  /** TestSet row 12: Set("key10") with 1 bytes; the indexed keys are then ["key10", "key8"]. */
  lemma {:induction false} TestSetRow12()
    ensures Set(Index(0, map["key8" := 9, "key9" := 1], ["key8", "key9"]), "key10", 1)
         == (Index(0, map["key8" := 9, "key10" := 1], ["key10", "key8"]), ["key9"])
  {
    var t0 := Index(-1, map["key8" := 9, "key9" := 1, "key10" := 1], ["key10", "key8", "key9"]);
    var t1 := Index(0, map["key8" := 9, "key10" := 1], ["key10", "key8"]);
    assert Insert(Index(0, map["key8" := 9, "key9" := 1], ["key8", "key9"]), "key10", 1) == t0;
    TestSetRow12Evicts1();
    assert Evict(t1) == (t1, []);
    EvictTurn(t0, t1, (t1, []));
    assert ["key9"] + [] == ["key9"];
  }

  /** TestSet row 13: Set("key8") with 6 bytes; the indexed keys are then ["key8", "key10"]. */
  lemma {:induction false} TestSetRow13()
    ensures Set(Index(0, map["key8" := 9, "key10" := 1], ["key10", "key8"]), "key8", 6)
         == (Index(3, map["key8" := 6, "key10" := 1], ["key8", "key10"]), [])
  {
    var t0 := Index(3, map["key8" := 6, "key10" := 1], ["key8", "key10"]);
    assert Insert(Index(0, map["key8" := 9, "key10" := 1], ["key10", "key8"]), "key8", 6) == t0 by {
      assert Without(["key10", "key8"], "key8") == ["key10"];
    }
    assert Evict(t0) == (t0, []);
  }

  /** TestSet row 14: Set("key11") with 3 bytes; the indexed keys are then ["key11", "key8", "key10"]. */
  lemma {:induction false} TestSetRow14()
    ensures Set(Index(3, map["key8" := 6, "key10" := 1], ["key8", "key10"]), "key11", 3)
         == (Index(0, map["key8" := 6, "key10" := 1, "key11" := 3], ["key11", "key8", "key10"]), [])
  {
    var t0 := Index(0, map["key8" := 6, "key10" := 1, "key11" := 3], ["key11", "key8", "key10"]);
    assert Insert(Index(3, map["key8" := 6, "key10" := 1], ["key8", "key10"]), "key11", 3) == t0;
    assert Evict(t0) == (t0, []);
  }

  /** TestSet row 15, eviction 1: "key10" leaves from the back. */
  lemma {:induction false} TestSetRow15Evicts1()
    ensures Purge(Index(-5, map["key8" := 6, "key10" := 1, "key11" := 3, "key12" := 5], ["key12", "key11", "key8", "key10"]), "key10")
         == Index(-4, map["key8" := 6, "key11" := 3, "key12" := 5], ["key12", "key11", "key8"])
  {
    var p := Purge(Index(-5, map["key8" := 6, "key10" := 1, "key11" := 3, "key12" := 5], ["key12", "key11", "key8", "key10"]), "key10");
    assert p.order == ["key12", "key11", "key8"] by {
      assert Without(["key12", "key11", "key8", "key10"], "key10") == ["key12", "key11", "key8"];
    }
    assert p.sizes == map["key8" := 6, "key11" := 3, "key12" := 5];
  }

  /** TestSet row 15, eviction 2: "key8" leaves from the back. */
  lemma {:induction false} TestSetRow15Evicts2()
    ensures Purge(Index(-4, map["key8" := 6, "key11" := 3, "key12" := 5], ["key12", "key11", "key8"]), "key8")
         == Index(2, map["key11" := 3, "key12" := 5], ["key12", "key11"])
  {
    var p := Purge(Index(-4, map["key8" := 6, "key11" := 3, "key12" := 5], ["key12", "key11", "key8"]), "key8");
    assert p.order == ["key12", "key11"] by {
      assert Without(["key12", "key11", "key8"], "key8") == ["key12", "key11"];
    }
    assert p.sizes == map["key11" := 3, "key12" := 5];
  }

  /** TestSet row 15: Set("key12") with 5 bytes; the indexed keys are then ["key12", "key11"]. */
  lemma {:induction false} TestSetRow15()
    ensures Set(Index(0, map["key8" := 6, "key10" := 1, "key11" := 3], ["key11", "key8", "key10"]), "key12", 5)
         == (Index(2, map["key11" := 3, "key12" := 5], ["key12", "key11"]), ["key10", "key8"])
  {
    var t0 := Index(-5, map["key8" := 6, "key10" := 1, "key11" := 3, "key12" := 5], ["key12", "key11", "key8", "key10"]);
    var t1 := Index(-4, map["key8" := 6, "key11" := 3, "key12" := 5], ["key12", "key11", "key8"]);
    var t2 := Index(2, map["key11" := 3, "key12" := 5], ["key12", "key11"]);
    assert Insert(Index(0, map["key8" := 6, "key10" := 1, "key11" := 3], ["key11", "key8", "key10"]), "key12", 5) == t0;
    TestSetRow15Evicts1();
    TestSetRow15Evicts2();
    assert Evict(t2) == (t2, []);
    EvictTurn(t1, t2, (t2, []));
    assert ["key8"] + [] == ["key8"];
    EvictTurn(t0, t1, (t2, ["key8"]));
    assert ["key10"] + ["key8"] == ["key10", "key8"];
  }

  /**
   * TestGet: a Get of an unknown key misses; after key1 and key2 (5 bytes
   * each) a Get of key1 moves it to the front, so the next Set of 5 bytes
   * evicts key2 and keeps key1.
   */
  lemma {:induction false} TestGetTrace()
    ensures Touch(Empty(10), "unknown") == Empty(10)
    ensures Set(Set(Empty(10), "key1", 5).0, "key2", 5).0 == Index(0, map["key1" := 5, "key2" := 5], ["key2", "key1"])
    ensures Touch(Index(0, map["key1" := 5, "key2" := 5], ["key2", "key1"]), "key1")
         == Index(0, map["key1" := 5, "key2" := 5], ["key1", "key2"])
    ensures Set(Index(0, map["key1" := 5, "key2" := 5], ["key1", "key2"]), "key3", 5)
         == (Index(0, map["key1" := 5, "key3" := 5], ["key3", "key1"]), ["key2"])
  {
    var a := Insert(Empty(10), "key1", 5);
    assert a == Index(5, map["key1" := 5], ["key1"]);
    assert Evict(a) == (a, []);
    var b := Insert(a, "key2", 5);
    assert b == Index(0, map["key1" := 5, "key2" := 5], ["key2", "key1"]);
    assert Evict(b) == (b, []);
    assert Without(["key2", "key1"], "key1") == ["key2"];
    var c := Index(0, map["key1" := 5, "key2" := 5], ["key1", "key2"]);
    var d0 := Insert(c, "key3", 5);
    assert d0 == Index(-5, map["key1" := 5, "key2" := 5, "key3" := 5], ["key3", "key1", "key2"]);
    assert Without(["key3", "key1", "key2"], "key2") == ["key3", "key1"];
    var d1 := Purge(d0, "key2");
    assert d1 == Index(0, map["key1" := 5, "key3" := 5], ["key3", "key1"]);
    assert Evict(d1) == (d1, []);
    assert ["key2"] + Evict(d1).1 == ["key2"];
    assert Evict(d0) == (d1, ["key2"]);
  }

  /** TestDelete: after a Set and a Delete of key1 the index is empty again with its full budget. */
  lemma {:induction false} TestDeleteTrace()
    ensures Delete(Set(Empty(10), "key1", 4).0, "key1") == Empty(10)
  {
    var a := Insert(Empty(10), "key1", 4);
    assert a == Index(6, map["key1" := 4], ["key1"]);
    assert Evict(a) == (a, []);
    assert Without(["key1"], "key1") == [];
    assert Purge(a, "key1").sizes == map[];
  }
}

/**
 * The two orders the components put bunker lists in, `Array.prototype.sort` with their
 * comparators, and the active/inactive partition the lists are displayed in.
 */
module BunkerOrdering {
  import opened BunkerTypes

  /**
   * `(a, b) => a.timestamp - b.timestamp` (BunkerStatus.tsx, BunkerContent.tsx) and the
   * active-first comparator of BunkerStatusClient.tsx.
   */
  datatype Ordering = ByTimestamp | ActiveFirst

  function Compare(o: Ordering, a: Bunker, b: Bunker): int
  {
    match o
    case ByTimestamp => a.timestamp - b.timestamp
    case ActiveFirst =>
      if a.isActive && !b.isActive then -1
      else if !a.isActive && b.isActive then 1
      else a.timestamp - b.timestamp
  }

  /** The comparator allows `a` before `b`. */
  predicate Le(o: Ordering, a: Bunker, b: Bunker)
  {
    Compare(o, a, b) <= 0
  }

  /** The comparator cannot tell `a` and `b` apart. */
  predicate SameKey(o: Ordering, a: Bunker, b: Bunker)
  {
    a.timestamp == b.timestamp && (o.ActiveFirst? ==> a.isActive == b.isActive)
  }

  /** Both comparators are consistent: a total preorder whose ties are exactly the equal keys. */
  lemma ComparatorConsistent(o: Ordering, a: Bunker, b: Bunker, c: Bunker)
    ensures Le(o, a, b) || Le(o, b, a)
    ensures Le(o, a, b) && Le(o, b, c) ==> Le(o, a, c)
    ensures Compare(o, a, b) == 0 <==> SameKey(o, a, b)
    ensures Compare(o, a, b) < 0 <==> Compare(o, b, a) > 0
  {
  }

  /** `x` placed after the list `s`, then moved left past every element the comparator puts after it. */
  function Insert(o: Ordering, s: seq<Bunker>, x: Bunker): (r: seq<Bunker>)
    ensures |r| == |s| + 1
  {
    if |s| == 0 || Le(o, s[|s| - 1], x) then s + [x]
    else Insert(o, s[..|s| - 1], x) + [s[|s| - 1]]
  }

  /**
   * `s.sort(comparator)`. The language's sort is stable, and a stable sort by a consistent
   * comparator has exactly one possible result, so insertion sort describes it.
   */
  function StableSort(o: Ordering, s: seq<Bunker>): (r: seq<Bunker>)
    ensures |r| == |s|
  {
    if |s| == 0 then [] else Insert(o, StableSort(o, s[..|s| - 1]), s[|s| - 1])
  }

  predicate Sorted(o: Ordering, s: seq<Bunker>)
  {
    forall i, j :: 0 <= i < j < |s| ==> Le(o, s[i], s[j])
  }

  /** The elements of `s` the comparator cannot tell apart from `k`, in their order in `s`. */
  function Ties(o: Ordering, s: seq<Bunker>, k: Bunker): seq<Bunker>
  {
    if |s| == 0 then []
    else Ties(o, s[..|s| - 1], k) + (if SameKey(o, s[|s| - 1], k) then [s[|s| - 1]] else [])
  }

  lemma {:induction false} InsertPermutes(o: Ordering, s: seq<Bunker>, x: Bunker)
    ensures multiset(Insert(o, s, x)) == multiset(s) + multiset{x}
  {
    if |s| > 0 && !Le(o, s[|s| - 1], x) {
      InsertPermutes(o, s[..|s| - 1], x);
      assert s == s[..|s| - 1] + [s[|s| - 1]];
    }
  }

  lemma {:induction false} InsertKeepsSorted(o: Ordering, s: seq<Bunker>, x: Bunker)
    requires Sorted(o, s)
    ensures Sorted(o, Insert(o, s, x))
  {
    if |s| == 0 {
    } else if Le(o, s[|s| - 1], x) {
      forall i | 0 <= i < |s| ensures Le(o, s[i], x) {
        ComparatorConsistent(o, s[i], s[|s| - 1], x);
      }
    } else {
      var init, last := s[..|s| - 1], s[|s| - 1];
      InsertKeepsSorted(o, init, x);
      InsertPermutes(o, init, x);
      var t := Insert(o, init, x);
      forall i | 0 <= i < |t| ensures Le(o, t[i], last) {
        assert t[i] in multiset(init) + multiset{x};
        ComparatorConsistent(o, x, last, last);
      }
    }
  }

  lemma {:induction false} TiesAppend(o: Ordering, a: seq<Bunker>, b: seq<Bunker>, k: Bunker)
    ensures Ties(o, a + b, k) == Ties(o, a, k) + Ties(o, b, k)
  {
    if |b| > 0 {
      assert (a + b)[..|a + b| - 1] == a + b[..|b| - 1];
      TiesAppend(o, a, b[..|b| - 1], k);
    } else {
      assert a + b == a;
    }
  }

  /** Inserting `x` keeps every class of ties in order and puts `x` after the elements it ties with. */
  lemma {:induction false} InsertKeepsTies(o: Ordering, s: seq<Bunker>, x: Bunker, k: Bunker)
    ensures Ties(o, Insert(o, s, x), k) == Ties(o, s, k) + Ties(o, [x], k)
  {
    if |s| == 0 || Le(o, s[|s| - 1], x) {
      TiesAppend(o, s, [x], k);
    } else {
      var init, last := s[..|s| - 1], s[|s| - 1];
      InsertKeepsTies(o, init, x, k);
      TiesAppend(o, Insert(o, init, x), [last], k);
      assert !(SameKey(o, x, k) && SameKey(o, last, k));
      assert Ties(o, s, k) == Ties(o, init, k) + Ties(o, [last], k);
    }
  }

  /** The sorted list is ordered by the comparator. */
  lemma {:induction false} StableSortSorted(o: Ordering, s: seq<Bunker>)
    ensures Sorted(o, StableSort(o, s))
  {
    if |s| > 0 {
      StableSortSorted(o, s[..|s| - 1]);
      InsertKeepsSorted(o, StableSort(o, s[..|s| - 1]), s[|s| - 1]);
    }
  }

  /** The sorted list holds the same bunkers, each as many times. */
  lemma {:induction false} StableSortPermutes(o: Ordering, s: seq<Bunker>)
    ensures multiset(StableSort(o, s)) == multiset(s)
  {
    if |s| > 0 {
      StableSortPermutes(o, s[..|s| - 1]);
      InsertPermutes(o, StableSort(o, s[..|s| - 1]), s[|s| - 1]);
      assert s == s[..|s| - 1] + [s[|s| - 1]];
    }
  }

  /** Stability: bunkers the comparator cannot tell apart keep their original relative order. */
  lemma {:induction false} StableSortStable(o: Ordering, s: seq<Bunker>, k: Bunker)
    ensures Ties(o, StableSort(o, s), k) == Ties(o, s, k)
  {
    if |s| > 0 {
      StableSortStable(o, s[..|s| - 1], k);
      InsertKeepsTies(o, StableSort(o, s[..|s| - 1]), s[|s| - 1], k);
    }
  }

  /**
   * In the active-first order every active bunker comes before every inactive one, and within
   * each group the instants ascend.
   */
  lemma ActiveFirstLayout(s: seq<Bunker>)
    requires Sorted(ActiveFirst, s)
    ensures forall i, j :: 0 <= i < j < |s| && s[j].isActive ==> s[i].isActive
    ensures forall i, j :: 0 <= i < j < |s| && s[i].isActive == s[j].isActive ==>
              s[i].timestamp <= s[j].timestamp
  {
    forall i, j | 0 <= i < j < |s| ensures s[j].isActive ==> s[i].isActive {
      assert Le(ActiveFirst, s[i], s[j]);
    }
  }

  /** In the timestamp order the instants ascend. */
  lemma ByTimestampLayout(s: seq<Bunker>)
    requires Sorted(ByTimestamp, s)
    ensures forall i, j :: 0 <= i < j < |s| ==> s[i].timestamp <= s[j].timestamp
  {
    forall i, j | 0 <= i < j < |s| ensures s[i].timestamp <= s[j].timestamp {
      assert Le(ByTimestamp, s[i], s[j]);
    }
  }

  // ---------------------------------------------------------------------------------------------
  // The active/inactive partition

  /** `bunkers.filter(b => b.isActive)`. */
  function Actives(s: seq<Bunker>): seq<Bunker>
  {
    if |s| == 0 then [] else Actives(s[..|s| - 1]) + (if s[|s| - 1].isActive then [s[|s| - 1]] else [])
  }

  /** `bunkers.filter(b => !b.isActive)`. */
  function Inactives(s: seq<Bunker>): seq<Bunker>
  {
    if |s| == 0 then [] else Inactives(s[..|s| - 1]) + (if s[|s| - 1].isActive then [] else [s[|s| - 1]])
  }

  /** `activeBunkers.length > 3`. */
  predicate HasExtraBunkers(s: seq<Bunker>)
  {
    |Actives(s)| > 3
  }

  /**
   * The two lists split the bunkers: together they hold each bunker exactly as often as the
   * list does, so their lengths add up to its length.
   */
  lemma PartitionSplits(s: seq<Bunker>)
    ensures multiset(Actives(s)) + multiset(Inactives(s)) == multiset(s)
    ensures |Actives(s)| + |Inactives(s)| == |s|
  {
    PartitionMultiset(s);
    assert |multiset(Actives(s))| == |Actives(s)| && |multiset(Inactives(s))| == |Inactives(s)|;
  }

  lemma {:induction false} PartitionMultiset(s: seq<Bunker>)
    ensures multiset(Actives(s)) + multiset(Inactives(s)) == multiset(s)
  {
    if |s| > 0 {
      var init, last := s[..|s| - 1], s[|s| - 1];
      calc {
        multiset(Actives(s)) + multiset(Inactives(s));
      == { PartitionSnoc(s); }
        multiset(Actives(init)) + multiset(Inactives(init)) + multiset{last};
      == { PartitionMultiset(init); }
        multiset(init) + multiset{last};
      == { assert s == init + [last]; }
        multiset(s);
      }
    }
  }

  /** The last bunker of a list goes to exactly one of the two lists. */
  lemma PartitionSnoc(s: seq<Bunker>)
    requires |s| > 0
    ensures var init, last := s[..|s| - 1], s[|s| - 1];
      multiset(Actives(s)) + multiset(Inactives(s))
      == multiset(Actives(init)) + multiset(Inactives(init)) + multiset{last}
  {
  }

  /** The active list holds exactly the active bunkers of the list, the inactive list the others. */
  lemma {:induction false} PartitionMembers(s: seq<Bunker>, b: Bunker)
    ensures b in Actives(s) <==> b in s && b.isActive
    ensures b in Inactives(s) <==> b in s && !b.isActive
  {
    if |s| > 0 {
      var init, last := s[..|s| - 1], s[|s| - 1];
      PartitionMembers(init, b);
      assert s == init + [last];
    }
  }

  /**
   * Both filters keep order: filtering a concatenation filters each part and concatenates the
   * results. With `PartitionSingleton` this fixes each list as the list's bunkers of that kind in
   * their original order.
   */
  lemma {:induction false} PartitionAppend(s: seq<Bunker>, t: seq<Bunker>)
    ensures Actives(s + t) == Actives(s) + Actives(t)
    ensures Inactives(s + t) == Inactives(s) + Inactives(t)
  {
    if |t| == 0 {
      assert s + t == s;
    } else {
      var t0, l := t[..|t| - 1], t[|t| - 1];
      var st := s + t;
      assert st[..|st| - 1] == s + t0;
      assert st[|st| - 1] == l;
      PartitionAppend(s, t0);
      var al := if l.isActive then [l] else [];
      var nl := if l.isActive then [] else [l];
      assert Actives(st) == Actives(s + t0) + al;
      assert Actives(t) == Actives(t0) + al;
      assert Actives(s) + Actives(t0) + al == Actives(s) + (Actives(t0) + al);
      assert Inactives(st) == Inactives(s + t0) + nl;
      assert Inactives(t) == Inactives(t0) + nl;
      assert Inactives(s) + Inactives(t0) + nl == Inactives(s) + (Inactives(t0) + nl);
    }
  }

  /** A single bunker is kept by exactly the list of its kind. */
  lemma PartitionSingleton(b: Bunker)
    ensures Actives([b]) == (if b.isActive then [b] else [])
    ensures Inactives([b]) == (if b.isActive then [] else [b])
  {
    assert [b][..0] == [];
  }

  /**
   * Filtering does not reorder ties: the bunkers of either list that the comparator cannot tell
   * apart from `k` are those of the whole list, in the same order, filtered.
   */
  lemma {:induction false} PartitionKeepsTies(o: Ordering, s: seq<Bunker>, k: Bunker)
    ensures Ties(o, Actives(s), k) == Actives(Ties(o, s, k))
    ensures Ties(o, Inactives(s), k) == Inactives(Ties(o, s, k))
  {
    if |s| > 0 {
      var init, last := s[..|s| - 1], s[|s| - 1];
      PartitionKeepsTies(o, init, k);
      var tl := if SameKey(o, last, k) then [last] else [];
      var al := if last.isActive then [last] else [];
      var nl := if last.isActive then [] else [last];
      assert Ties(o, s, k) == Ties(o, init, k) + tl;
      assert Actives(s) == Actives(init) + al;
      assert Inactives(s) == Inactives(init) + nl;
      TiesAppend(o, Actives(init), al, k);
      TiesAppend(o, Inactives(init), nl, k);
      PartitionAppend(Ties(o, init, k), tl);
      PartitionSingleton(last);
      assert [last][..0] == [];
      assert Ties(o, al, k) == Actives(tl);
      assert Ties(o, nl, k) == Inactives(tl);
    }
  }

  /** A timestamp-sorted list gives sorted halves. */
  lemma {:induction false} PartitionKeepsOrder(o: Ordering, s: seq<Bunker>)
    requires Sorted(o, s)
    ensures Sorted(o, Actives(s)) && Sorted(o, Inactives(s))
  {
    if |s| > 0 {
      var init, last := s[..|s| - 1], s[|s| - 1];
      PartitionKeepsOrder(o, init);
      assert s == init + [last];
      var a, n := Actives(init), Inactives(init);
      forall i | 0 <= i < |a| ensures Le(o, a[i], last) {
        PartitionMembers(init, a[i]);
        var k :| 0 <= k < |init| && init[k] == a[i];
      }
      forall i | 0 <= i < |n| ensures Le(o, n[i], last) {
        PartitionMembers(init, n[i]);
        var k :| 0 <= k < |init| && init[k] == n[i];
      }
    }
  }

  /** More than three active bunkers: the list minus its inactive ones is more than three long. */
  lemma ExtraBunkersMeaning(s: seq<Bunker>)
    ensures HasExtraBunkers(s) <==> |s| - |Inactives(s)| > 3
    ensures HasExtraBunkers(s) ==> |s| >= 4
  {
    PartitionSplits(s);
  }
}

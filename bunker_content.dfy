/**
 * src/components/BunkerContent.tsx: the page body. `fetchData` sorts the array it received in
 * place by instant and keeps that snapshot; the lists it shows tolerate a missing array.
 */
module BunkerContent {
  import opened BunkerTypes
  import opened BunkerOrdering

  /** Inserting before position `j` when everything from `j` on goes after `x` and `s[j - 1]` does not. */
  lemma {:induction false} InsertAt(s: seq<Bunker>, x: Bunker, j: nat)
    requires j <= |s|
    requires forall k :: j <= k < |s| ==> !Le(ByTimestamp, s[k], x)
    requires j == 0 || Le(ByTimestamp, s[j - 1], x)
    ensures Insert(ByTimestamp, s, x) == s[..j] + [x] + s[j..]
  {
    if j < |s| {
      var init := s[..|s| - 1];
      assert init[..j] == s[..j];
      InsertAt(init, x, j);
      assert s[j..] == init[j..] + [s[|s| - 1]];
    } else {
      assert s[..j] == s;
    }
  }

  /**
   * One step of the sort: `a[i]` moved left past the elements before it that go after it,
   * the others shifted one place right.
   */
  method InsertLast(a: array<Bunker>, i: nat)
    requires i < a.Length
    modifies a
    ensures a[..i + 1] == Insert(ByTimestamp, old(a[..i]), old(a[i]))
    ensures a[i + 1..] == old(a[i + 1..])
  {
    ghost var s := a[..i];
    var x := a[i];
    var j := i;
    while j > 0 && !Le(ByTimestamp, a[j - 1], x)
      invariant 0 <= j <= i
      invariant forall k :: 0 <= k < j ==> a[k] == s[k]
      invariant forall k :: j < k <= i ==> a[k] == s[k - 1]
      invariant forall k :: i < k < a.Length ==> a[k] == old(a[k])
      invariant forall k :: j <= k < i ==> !Le(ByTimestamp, s[k], x)
    {
      a[j] := a[j - 1];
      j := j - 1;
    }
    a[j] := x;
    InsertAt(s, x, j);
    assert a[..i + 1] == s[..j] + [x] + s[j..];
  }

  /** `data.bunkers.sort((a, b) => a.timestamp - b.timestamp)`, in place. */
  method SortByTimestamp(a: array<Bunker>)
    modifies a
    ensures a[..] == StableSort(ByTimestamp, old(a[..]))
  {
    for i := 0 to a.Length
      invariant a[..i] == StableSort(ByTimestamp, old(a[..])[..i])
      invariant a[i..] == old(a[..])[i..]
    {
      assert old(a[..])[..i + 1][..i] == old(a[..])[..i];
      InsertLast(a, i);
    }
    assert old(a[..])[..a.Length] == old(a[..]);
  }

  /** `bunkerStatus.bunkers?.filter(b => b.isActive) || []`. */
  function ActiveList(status: Payload): seq<Bunker>
  {
    if status.bunkers.Some? then Actives(status.bunkers.value) else []
  }

  /** `bunkerStatus.bunkers?.filter(b => !b.isActive) || []`. */
  function InactiveList(status: Payload): seq<Bunker>
  {
    if status.bunkers.Some? then Inactives(status.bunkers.value) else []
  }

  /** `bunkerStatus.bunkers?.length || 0`. */
  function Total(status: Payload): nat
  {
    if status.bunkers.Some? then |status.bunkers.value| else 0
  }

  /**
   * The two lists split the stored bunkers, so their lengths add up to the total shown; without
   * an array both are empty and the total is 0; there are extra bunkers exactly when more than
   * three are active.
   */
  lemma ContentPartition(status: Payload)
    ensures |ActiveList(status)| + |InactiveList(status)| == Total(status)
    ensures status.bunkers.Some? ==>
              multiset(ActiveList(status)) + multiset(InactiveList(status)) == multiset(status.bunkers.value)
    ensures status.bunkers.None? ==> ActiveList(status) == [] && InactiveList(status) == [] && Total(status) == 0
    ensures |ActiveList(status)| > 3 <==> Total(status) - |InactiveList(status)| > 3
  {
    if status.bunkers.Some? {
      PartitionSplits(status.bunkers.value);
    }
  }

  /** The component's state. */
  class Content {
    var bunkerStatus: Payload
    var error: Option<string>
    var loading: bool
    var isUpdating: bool

    /** `{ bunkers: [], lastUpdate: Date.now(), source: 'initial' }`, with the first load under way. */
    constructor(now: int)
      ensures bunkerStatus == Payload(Some([]), Some(now), Some("initial"), None, None)
      ensures error == None && loading && !isUpdating
    {
      bunkerStatus := Payload(Some([]), Some(now), Some("initial"), None, None);
      error := None;
      loading := true;
      isUpdating := false;
    }

    /**
     * `fetchData` from `setIsUpdating(true)` through its `finally`: the service answered `data`,
     * whose `bunkers` array, when it has one, is `received`. That array is sorted in place and
     * the snapshot kept; without one nothing but the two flags changes.
     */
    method FetchData(data: Payload, received: array?<Bunker>)
      requires received == null <==> data.bunkers.None?
      requires received != null ==> received[..] == data.bunkers.value
      modifies this, received
      ensures received != null ==>
                && received[..] == StableSort(ByTimestamp, old(received[..]))
                && bunkerStatus == data.(bunkers := Some(received[..])) && error == None
      ensures received == null ==> bunkerStatus == old(bunkerStatus) && error == old(error)
      ensures !loading && !isUpdating
    {
      isUpdating := true;
      if received != null {
        KeepSorted(data, received);
      }
      loading := false;
      isUpdating := false;
    }

    /** The branch of `fetchData` that received an array: sort it in place and keep the snapshot. */
    method KeepSorted(data: Payload, received: array<Bunker>)
      modifies this, received
      ensures received[..] == StableSort(ByTimestamp, old(received[..]))
      ensures bunkerStatus == data.(bunkers := Some(received[..])) && error == None
      ensures loading == old(loading) && isUpdating == old(isUpdating)
    {
      SortByTimestamp(received);
      bunkerStatus := data.(bunkers := Some(received[..]));
      error := None;
    }
  }

  /** The kept list holds the received bunkers, ascending by instant. */
  lemma FetchedListSorted(before: seq<Bunker>, after: seq<Bunker>)
    requires after == StableSort(ByTimestamp, before)
    ensures multiset(after) == multiset(before) && Sorted(ByTimestamp, after)
  {
    StableSortPermutes(ByTimestamp, before);
    StableSortSorted(ByTimestamp, before);
  }
}

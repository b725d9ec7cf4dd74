/**
 * src/components/BunkerStatus.tsx: the hourly board. `fetchData` keeps the last good snapshot,
 * sorted by instant on a copy, and shows the service's error instead when there is one.
 */
module BunkerStatusComponent {
  import opened BunkerTypes
  import opened BunkerOrdering

  /** The board's stored data and error message. */
  datatype View = View(data: Payload, error: Option<string>)

  /** The state `fetchData` leaves after the service answered `newData`. */
  function ApplyResult(v: View, newData: Payload): View
  {
    if Truthy(newData.error) then View(v.data, newData.error)
    else if newData.bunkers.Some? then
      View(newData.(bunkers := Some(StableSort(ByTimestamp, newData.bunkers.value))), None)
    else v
  }

  /**
   * An answer carrying an error keeps the data and shows the error; any other answer with a
   * `bunkers` array replaces the data by it, with only the list reordered, and clears the
   * error; an answer with neither changes nothing.
   */
  lemma ApplyResultMeaning(v: View, newData: Payload)
    ensures Truthy(newData.error) ==> ApplyResult(v, newData) == View(v.data, newData.error)
    ensures !Truthy(newData.error) && newData.bunkers.Some? ==>
              var r := ApplyResult(v, newData);
              && r.error == None && r.data.bunkers.Some?
              && r.data.lastUpdate == newData.lastUpdate && r.data.source == newData.source
              && r.data.messageCount == newData.messageCount && r.data.error == newData.error
              && multiset(r.data.bunkers.value) == multiset(newData.bunkers.value)
              && Sorted(ByTimestamp, r.data.bunkers.value)
    ensures !Truthy(newData.error) && newData.bunkers.None? ==> ApplyResult(v, newData) == v
  {
    if newData.bunkers.Some? {
      StableSortPermutes(ByTimestamp, newData.bunkers.value);
      StableSortSorted(ByTimestamp, newData.bunkers.value);
    }
  }

  /** The stored list is there and ascending by instant, as the board shows it. */
  ghost predicate Good(v: View)
  {
    v.data.bunkers.Some? && Sorted(ByTimestamp, v.data.bunkers.value)
  }

  /** Every answer keeps the stored list present and ascending by instant. */
  lemma ApplyResultKeepsGood(v: View, newData: Payload)
    ensures Good(v) ==> Good(ApplyResult(v, newData))
  {
    if !Truthy(newData.error) && newData.bunkers.Some? {
      StableSortSorted(ByTimestamp, newData.bunkers.value);
    }
  }

  /**
   * The active and inactive lists of a stored list split it, each is ascending by instant and
   * shows bunkers of equal instant in their stored order, and there are extra bunkers exactly when
   * more than three are active.
   */
  lemma BoardPartition(v: View)
    requires Good(v)
    ensures var s := v.data.bunkers.value;
      && |Actives(s)| + |Inactives(s)| == |s|
      && multiset(Actives(s)) + multiset(Inactives(s)) == multiset(s)
      && Sorted(ByTimestamp, Actives(s)) && Sorted(ByTimestamp, Inactives(s))
      && (forall k :: Ties(ByTimestamp, Actives(s), k) == Actives(Ties(ByTimestamp, s, k)))
      && (forall k :: Ties(ByTimestamp, Inactives(s), k) == Inactives(Ties(ByTimestamp, s, k)))
      && (HasExtraBunkers(s) <==> |s| - |Inactives(s)| > 3)
  {
    var s := v.data.bunkers.value;
    PartitionSplits(s);
    PartitionKeepsOrder(ByTimestamp, s);
    forall k ensures Ties(ByTimestamp, Actives(s), k) == Actives(Ties(ByTimestamp, s, k))
      && Ties(ByTimestamp, Inactives(s), k) == Inactives(Ties(ByTimestamp, s, k))
    {
      PartitionKeepsTies(ByTimestamp, s, k);
    }
    ExtraBunkersMeaning(s);
  }

  /** The component's state. */
  class Board {
    var view: View
    var isUpdating: bool

    /** `{ bunkers: [] }` with no error. */
    constructor()
      ensures view == View(Payload(Some([]), None, None, None, None), None) && !isUpdating
      ensures Good(view)
    {
      view := View(Payload(Some([]), None, None, None, None), None);
      isUpdating := false;
    }

    /** `fetchData` from `setIsUpdating(true)` through its `finally`, the service having answered `newData`. */
    method FetchData(newData: Payload)
      modifies this
      ensures view == ApplyResult(old(view), newData) && !isUpdating
      ensures old(Good(view)) ==> Good(view)
    {
      isUpdating := true;
      ApplyResultKeepsGood(view, newData);
      if Truthy(newData.error) {
        view := view.(error := newData.error);
      } else if newData.bunkers.Some? {
        var sorted := StableSort(ByTimestamp, newData.bunkers.value);
        view := View(newData.(bunkers := Some(sorted)), None);
      }
      isUpdating := false;
    }
  }
}

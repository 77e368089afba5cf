/**
  The backing store of a project (or guide) list tab: the adapter's current
  list, the snapshot it takes when it is built, and its search filter.
*/
module ProjectList {
  import opened Wrappers
  import opened Json

  /**
    A java.util.ArrayList of JSON objects. The tab, its adapter and the filter
    hand these around by reference, so two fields may name the same list.
  */
  class ItemList {
    var elems: seq<Record>

    constructor (s: seq<Record>)
      ensures elems == s
    {
      elems := s;
    }
  }

  /** android.widget.Filter.FilterResults: the list to show (possibly null) and a count. */
  datatype FilterResults = FilterResults(values: ItemList?, count: int)

  /** Which of its two change signals the adapter sends to the list view. */
  datatype Notification = DataSetChanged | DataSetInvalidated

  /** What the filter's background step decides to hand over to the UI step. */
  datatype FilterDecision =
    | NoConstraint                       // no query at all: an unset FilterResults
    | ShowOriginal                       // empty query: the snapshot, with count 0
    | Superseded                         // a newer query took over: no result
    | ShowResults(found: seq<Record>)    // the autocomplete results, none read as empty

  /** A query that goes to the autocomplete service: present and not empty. */
  predicate IsSearch(constraint: Option<string>) {
    constraint.Some? && |constraint.value| > 0
  }

  /**
    The outcome of performFiltering for `constraint`, where `latest` is the
    adapter's current search string once the autocomplete call has returned and
    `fetched` is what that call returned (None when it failed).
  */
  function Decide(constraint: Option<string>, latest: Option<string>, fetched: Option<seq<Record>>): (d: FilterDecision)
    ensures d == NoConstraint <==> constraint.None?
    ensures d == ShowOriginal <==> constraint == Some("")
    ensures d == Superseded <==> IsSearch(constraint) && latest != constraint
    ensures d.ShowResults? <==> IsSearch(constraint) && latest == constraint
    ensures d.ShowResults? && fetched.None? ==> d.found == []
    ensures d.ShowResults? && fetched.Some? ==> d.found == fetched.value
  {
    if constraint.None? then NoConstraint
    else if |constraint.value| == 0 then ShowOriginal
    else if constraint != latest then Superseded
    else ShowResults(if fetched.None? then [] else fetched.value)
  }

  /** BaseTab.ProjectsAdapter: a list adapter over JSON objects, with a search filter. */
  class ProjectsAdapter {
    /** mItems: the list the view shows; null only after a query-less filter run. */
    var items: ItemList?
    /** mOriginalItems: a copy of the list the adapter was built with. */
    const originalItems: ItemList
    /** mCurrentSearchString: the query of the latest search the filter started. */
    var currentSearchString: Option<string>

    /** The adapter shows `objects` itself and keeps a copy of its contents as the snapshot. */
    constructor (objects: ItemList)
      ensures items == objects
      ensures fresh(originalItems) && originalItems.elems == objects.elems
      ensures currentSearchString == None
    {
      items := objects;
      originalItems := new ItemList(objects.elems);
      currentSearchString := None;
    }

    /** getCount: the size of the current list, 0 when there is none. */
    method GetCount() returns (n: nat)
      ensures items == null ==> n == 0
      ensures items != null ==> n == |items.elems|
    {
      n := if items == null then 0 else |items.elems|;
    }

    /**
      updateItem: replaces element `index` of the current list in place. `ok` is
      false exactly where List.set would throw (no list, or index out of bounds),
      and then nothing changes.
    */
    method UpdateItem(index: int, obj: Record) returns (ok: bool)
      modifies items
      ensures ok <==> items != null && 0 <= index < |old(items.elems)|
      ensures ok ==> items.elems == old(items.elems)[index := obj]
      ensures !ok && items != null ==> items.elems == old(items.elems)
      ensures items != originalItems ==> originalItems.elems == old(originalItems.elems)
    {
      ok := items != null && 0 <= index < |items.elems|;
      if ok {
        items.elems := items.elems[index := obj];
      }
    }

    /**
      addItemAtBeginning: inserts `obj` in front of the current list, shifting the
      old items up by one. `ok` is false where List.add would throw (no list).
    */
    method AddItemAtBeginning(obj: Record) returns (ok: bool)
      modifies items
      ensures ok <==> items != null
      ensures ok ==> items.elems == [obj] + old(items.elems)
      ensures items != originalItems ==> originalItems.elems == old(originalItems.elems)
    {
      ok := items != null;
      if ok {
        items.elems := [obj] + items.elems;
      }
    }

    /**
      performFiltering: the filter's background step. For a real search it
      records the query as the current search string, then calls the
      autocomplete service, whose answer is `fetched`; `overwrittenBy` is the
      query another filter run stored meanwhile, if any (only a real search
      stores one, so it is never empty). The outcome follows
      Decide. `refetch` says the tab re-requests its default list because the
      chosen list is empty and `recall` (recallServiceActionIfNoResults) is set.
    */
    method PerformFiltering(constraint: Option<string>, fetched: Option<seq<Record>>,
                            overwrittenBy: Option<string>, recall: bool)
      returns (res: Option<FilterResults>, refetch: bool)
      requires overwrittenBy.None? || |overwrittenBy.value| > 0
      modifies this`currentSearchString
      ensures IsSearch(constraint) && overwrittenBy.None? ==> currentSearchString == constraint
      ensures IsSearch(constraint) && overwrittenBy.Some? ==> currentSearchString == overwrittenBy
      ensures !IsSearch(constraint) ==> currentSearchString == old(currentSearchString)
      ensures match Decide(constraint, currentSearchString, fetched)
        case NoConstraint => res == Some(FilterResults(null, 0)) && !refetch
        case ShowOriginal =>
          && res == Some(FilterResults(originalItems, 0))
          && refetch == (recall && originalItems.elems == [])
        case Superseded => res == None && !refetch
        case ShowResults(found) =>
          && res.Some? && res.value.values != null && fresh(res.value.values)
          && res.value.values.elems == found && res.value.count == |found|
          && refetch == (recall && found == [])
    {
      if constraint.None? {
        res, refetch := Some(FilterResults(null, 0)), false;
      } else if |constraint.value| == 0 {
        res := Some(FilterResults(originalItems, 0));
        refetch := recall && |originalItems.elems| == 0;
      } else {
        currentSearchString := constraint;
        // The autocomplete request blocks here; a newer filter run may store its query.
        if overwrittenBy.Some? {
          currentSearchString := overwrittenBy;
        }
        if constraint != currentSearchString {
          return None, false;
        }
        var list := new ItemList(if fetched.None? then [] else fetched.value);
        res := Some(FilterResults(list, |list.elems|));
        refetch := recall && |list.elems| == 0;
      }
    }

    /**
      publishResults: the filter's UI step. A dropped (null) result leaves the
      current list alone; any other result becomes the current list. The view is
      told the data changed when the count is positive, invalidated otherwise.
    */
    method PublishResults(results: Option<FilterResults>) returns (note: Notification)
      modifies this`items
      ensures results.None? ==> items == old(items)
      ensures results.Some? ==> items == results.value.values
      ensures note == DataSetChanged <==> results.Some? && results.value.count > 0
    {
      if results.Some? && results.value.count > 0 {
        items := results.value.values;
        note := DataSetChanged;
      } else {
        if results.Some? {
          items := results.value.values;
        }
        note := DataSetInvalidated;
      }
    }
  }

  /**
    Emptying the search box: the filter runs on "" and the UI step publishes
    the result, after which the adapter shows its snapshot again, that very list.
  */
  method ClearSearch(adapter: ProjectsAdapter, recall: bool) returns (count: nat)
    modifies adapter
    ensures adapter.items == adapter.originalItems
    ensures count == |adapter.originalItems.elems|
    ensures adapter.currentSearchString == old(adapter.currentSearchString)
  {
    var res, _ := adapter.PerformFiltering(Some(""), None, None, recall);
    var _ := adapter.PublishResults(res);
    count := adapter.GetCount();
  }

  /**
    A search overtaken by a newer query while its request was in flight: its
    answer is dropped and the list on screen stays as it was.
  */
  method OvertakenSearch(adapter: ProjectsAdapter, query: string, newer: string,
                         fetched: Option<seq<Record>>, recall: bool)
    requires query != "" && newer != "" && newer != query
    modifies adapter
    ensures adapter.items == old(adapter.items)
    ensures adapter.currentSearchString == Some(newer)
  {
    var res, refetch := adapter.PerformFiltering(Some(query), fetched, Some(newer), recall);
    assert res.None? && !refetch;
    var _ := adapter.PublishResults(res);
  }

  /**
    Edits made through a fresh adapter change the list it was built with but
    not its snapshot.
  */
  method EditsSpareSnapshot(objects: ItemList, index: int, obj: Record, first: Record)
    returns (adapter: ProjectsAdapter)
    modifies objects
    ensures fresh(adapter) && adapter.items == objects
    ensures adapter.originalItems.elems == old(objects.elems)
    ensures 0 <= index < |old(objects.elems)| ==> objects.elems == [first] + old(objects.elems)[index := obj]
  {
    adapter := new ProjectsAdapter(objects);
    var _ := adapter.UpdateItem(index, obj);
    var _ := adapter.AddItemAtBeginning(first);
  }
}

/**
  The user's species list adapter and its scroll-gated image loading: while
  the list scrolls, rows only record which photo belongs where; when it comes
  to rest, every visible row with a recorded photo and image view is loaded.
  A photo fades in the first time its row finishes loading, and never again.
*/
module SpeciesList {
  import opened Wrappers
  import opened Json
  import opened TaxonDisplay

  /** An ImageView a row shows its photo in; only its identity matters here. */
  class ImageView {
    constructor () {}
  }

  /** One call into the image loader: fetch `url` into `view` on behalf of row `position`. */
  datatype LoadRequest = LoadRequest(position: int, view: ImageView?, url: string)

  /** The platform's scroll states. */
  const ScrollStateIdle: int := 0
  const ScrollStateTouchScroll: int := 1
  const ScrollStateFling: int := 2

  type PhotoNames = map<int, Option<string>>
  type ImageViews = map<int, ImageView?>

  /** A row that can be loaded on demand: both maps hold an entry for it and neither is null. */
  predicate Loadable(photoNames: PhotoNames, imageViews: ImageViews, p: int) {
    p in imageViews && p in photoNames && photoNames[p].Some? && imageViews[p] != null
  }

  /** The loads loadImageByPosition issues for row `p`. */
  function LoadFor(photoNames: PhotoNames, imageViews: ImageViews, p: int): seq<LoadRequest> {
    if Loadable(photoNames, imageViews, p) then [LoadRequest(p, imageViews[p], photoNames[p].value)] else []
  }

  /** The loads that trying every row from `first` to `last`, in that order, issues. */
  function IdleLoads(photoNames: PhotoNames, imageViews: ImageViews, first: int, last: int): seq<LoadRequest>
    decreases last - first
  {
    if last < first then []
    else IdleLoads(photoNames, imageViews, first, last - 1) + LoadFor(photoNames, imageViews, last)
  }

  /**
    Every idle-time load is for a loadable row in the visible range, with the
    URL and view recorded for that row, and the loads go up the rows in order.
  */
  lemma {:induction false} IdleLoadsSound(photoNames: PhotoNames, imageViews: ImageViews, first: int, last: int)
    ensures forall k :: 0 <= k < |IdleLoads(photoNames, imageViews, first, last)| ==>
      var q := IdleLoads(photoNames, imageViews, first, last)[k];
      && first <= q.position <= last
      && Loadable(photoNames, imageViews, q.position)
      && q.view == imageViews[q.position]
      && q.url == photoNames[q.position].value
    ensures forall i, j :: 0 <= i < j < |IdleLoads(photoNames, imageViews, first, last)| ==>
      IdleLoads(photoNames, imageViews, first, last)[i].position < IdleLoads(photoNames, imageViews, first, last)[j].position
    decreases last - first
  {
    if last >= first {
      IdleLoadsSound(photoNames, imageViews, first, last - 1);
    }
  }

  /** Every loadable row in the visible range gets a load when the list comes to rest. */
  lemma {:induction false} IdleLoadsComplete(photoNames: PhotoNames, imageViews: ImageViews, first: int, last: int, p: int)
    requires first <= p <= last && Loadable(photoNames, imageViews, p)
    ensures exists k :: 0 <= k < |IdleLoads(photoNames, imageViews, first, last)| &&
                        IdleLoads(photoNames, imageViews, first, last)[k].position == p
    decreases last - first
  {
    var r := IdleLoads(photoNames, imageViews, first, last);
    if p == last {
      assert r[|r| - 1].position == p;
    } else {
      IdleLoadsComplete(photoNames, imageViews, first, last - 1, p);
      var k :| 0 <= k < |IdleLoads(photoNames, imageViews, first, last - 1)| &&
               IdleLoads(photoNames, imageViews, first, last - 1)[k].position == p;
      assert r[k].position == p;
    }
  }

  /**
    The URL getView records for a row, or the exception that stops it first:
    the row must hold a "taxon" object, and the display-name and photo-URL
    rules must both succeed on it before anything is recorded.
  */
  function RecordedPhoto(row: Record, viewType: int): Outcome<string> {
    match GetObject(row, "taxon")
    case Err(e) => Err(e)
    case Ok(taxon) =>
      match DisplayName(taxon, viewType)
      case Err(e) => Err(e)
      case Ok(_) => PhotoUrl(taxon)
  }

  /** UserSpeciesAdapter: the rows of a user's species list, with on-demand photo loading. */
  class UserSpeciesAdapter {
    /** mResultList: the rows, each holding a "taxon" record; possibly null. */
    const resultList: Option<seq<Record>>
    const viewType: int
    /** mIsScrolling: whether the list is being dragged or flung. */
    var isScrolling: bool
    /** mObservationPhotoNames: the photo URL getView found for each row. */
    var photoNames: PhotoNames
    /** mImageViews: the image view getView used for each row. */
    var imageViews: ImageViews
    /** mObservationLoaded: the rows whose photo has faded in once. */
    var loaded: map<int, bool>
    /** The calls made into the image loader so far, oldest first. */
    var loads: seq<LoadRequest>

    constructor (results: Option<seq<Record>>, viewType: int)
      ensures resultList == results && this.viewType == viewType
      ensures !isScrolling && photoNames == map[] && imageViews == map[] && loaded == map[] && loads == []
    {
      resultList := results;
      this.viewType := viewType;
      isScrolling := false;
      photoNames := map[];
      imageViews := map[];
      loaded := map[];
      loads := [];
    }

    /** getCount: the number of rows, 0 when there is no result list. */
    method GetCount() returns (n: nat)
      ensures resultList.None? ==> n == 0
      ensures resultList.Some? ==> n == |resultList.value|
    {
      n := if resultList.None? then 0 else |resultList.value|;
    }

    /** loadObsImage: hands one fetch to the image loader. */
    method LoadObsImage(position: int, view: ImageView?, url: string)
      modifies this`loads
      ensures loads == old(loads) + [LoadRequest(position, view, url)]
    {
      loads := loads + [LoadRequest(position, view, url)];
    }

    /**
      The loader's completion callback for row `position`: the photo fades in
      unless the row is already marked loaded, and afterwards it is marked.
    */
    method OnImageLoaded(position: int) returns (fadeIn: bool)
      modifies this`loaded
      ensures fadeIn <==> !(position in old(loaded) && old(loaded)[position])
      ensures loaded == old(loaded)[position := true]
    {
      fadeIn := position !in loaded || !loaded[position];
      if fadeIn {
        loaded := loaded[position := true];
      }
    }

    /** loadImageByPosition: loads row `position` only when it is loadable. */
    method LoadImageByPosition(position: int)
      modifies this`loads
      ensures loads == old(loads) + LoadFor(photoNames, imageViews, position)
    {
      if position !in imageViews || position !in photoNames {
        return;
      }
      var imageView := imageViews[position];
      var photoName := photoNames[position];
      if photoName.None? || imageView == null {
        return;
      }
      LoadObsImage(position, imageView, photoName.value);
    }

    /**
      onScrollStateChanged: dragging or flinging marks the list as scrolling;
      coming to rest clears the mark and tries every visible row from `first`
      to `last`; any other state changes nothing.
    */
    method OnScrollStateChanged(state: int, first: int, last: int)
      modifies this`isScrolling, this`loads
      ensures state == ScrollStateFling || state == ScrollStateTouchScroll ==> isScrolling && loads == old(loads)
      ensures state == ScrollStateIdle ==> !isScrolling && loads == old(loads) + IdleLoads(photoNames, imageViews, first, last)
      ensures state != ScrollStateFling && state != ScrollStateTouchScroll && state != ScrollStateIdle ==>
        isScrolling == old(isScrolling) && loads == old(loads)
    {
      if state == ScrollStateFling || state == ScrollStateTouchScroll {
        isScrolling := true;
      } else if state == ScrollStateIdle {
        isScrolling := false;
        var p := first;
        while p <= last
          invariant !isScrolling
          invariant first <= p && (p <= last + 1 || p == first)
          invariant loads == old(loads) + IdleLoads(photoNames, imageViews, first, p - 1)
        {
          LoadImageByPosition(p);
          p := p + 1;
        }
      }
    }

    /**
      getView's bookkeeping for row `position` shown in `speciesPic`. Once the
      row's taxon, name and photo URL are read, the URL and the view are
      recorded for the row, and the photo is loaded at once unless the list is
      scrolling. A JSON lookup that throws first leaves everything as it was.
      `layout` is the layout a new row view is inflated from. The row's image
      view is never null: getView uses it before recording anything, so a
      null one would end the call with an uncaught exception.
    */
    method GetView(position: int, speciesPic: ImageView) returns (layout: Layout)
      requires resultList.Some? && 0 <= position < |resultList.value|
      modifies this`photoNames, this`imageViews, this`loads
      ensures layout == LayoutFor(viewType)
      ensures match RecordedPhoto(resultList.value[position], viewType)
        case Ok(url) =>
          && photoNames == old(photoNames)[position := Some(url)]
          && imageViews == old(imageViews)[position := speciesPic]
          && loads == old(loads) + (if isScrolling then [] else [LoadRequest(position, speciesPic, url)])
        case Err(_) =>
          photoNames == old(photoNames) && imageViews == old(imageViews) && loads == old(loads)
    {
      layout := LayoutFor(viewType);
      var row := resultList.value[position];
      var taxon := GetObject(row, "taxon");
      if taxon.Err? {
        return;
      }
      var name := DisplayName(taxon.value, viewType);
      if name.Err? {
        return;
      }
      var url := PhotoUrl(taxon.value);
      if url.Err? {
        return;
      }
      // The rules never yield a null URL, so this guard always passes.
      var photoUrl: Option<string> := Some(url.value);
      if photoUrl.Some? && !isScrolling {
        LoadObsImage(position, speciesPic, photoUrl.value);
      }
      photoNames := photoNames[position := photoUrl];
      imageViews := imageViews[position := speciesPic];
    }
  }

  /**
    A row drawn mid-fling gets no load; when the list settles with that row
    visible, exactly its load is issued.
  */
  method FlingThenSettle(adapter: UserSpeciesAdapter, position: int, pic: ImageView)
    requires adapter.resultList.Some? && 0 <= position < |adapter.resultList.value|
    requires RecordedPhoto(adapter.resultList.value[position], adapter.viewType).Ok?
    modifies adapter
    ensures !adapter.isScrolling
    ensures adapter.loads == old(adapter.loads) +
      [LoadRequest(position, pic, RecordedPhoto(adapter.resultList.value[position], adapter.viewType).value)]
  {
    adapter.OnScrollStateChanged(ScrollStateFling, position, position);
    var _ := adapter.GetView(position, pic);
    adapter.OnScrollStateChanged(ScrollStateIdle, position, position);
  }

  /** Two completed loads of one row: the first may fade in, the second never does. */
  method LoadTwice(adapter: UserSpeciesAdapter, position: int) returns (first: bool, second: bool)
    modifies adapter
    ensures !second
    ensures first <==> !(position in old(adapter.loaded) && old(adapter.loaded)[position])
  {
    first := adapter.OnImageLoaded(position);
    second := adapter.OnImageLoaded(position);
  }
}

/**
  How a row of a user's species list is presented: which layout it uses,
  which name it shows (and whether the scientific name appears under it),
  which photo it loads and which count it shows. Each rule reads the row's
  taxon record through the org.json accessors and fails where one of them
  would throw.
*/
module TaxonDisplay {
  import opened Wrappers
  import opened Json

  /** The adapter's view types. */
  const ViewTypeList: int := 0x1000
  const ViewTypeGrid: int := 0x1001
  const ViewTypeCards: int := 0x1002

  /** The row layouts. */
  datatype Layout = MissionGridItem | ObservationGridItem | UserProfileSpeciesItem

  /** Cards and grid have their own layouts; every other view type gets the list row. */
  function LayoutFor(viewType: int): (l: Layout)
    ensures l == MissionGridItem <==> viewType == ViewTypeCards
    ensures l == ObservationGridItem <==> viewType == ViewTypeGrid
    ensures l == UserProfileSpeciesItem <==> viewType != ViewTypeCards && viewType != ViewTypeGrid
  {
    if viewType == ViewTypeCards then MissionGridItem
    else if viewType == ViewTypeGrid then ObservationGridItem
    else UserProfileSpeciesItem
  }

  /**
    What getView does to the scientific-name line: sets its text, hides it,
    or (outside the list view) leaves it alone. Setting the text does not
    make a hidden line visible again.
  */
  datatype ScienceName = ShowScience(text: string) | HideScience | Untouched

  /** The name a row shows and what it does with the scientific-name line. */
  datatype NameDisplay = NameDisplay(shown: string, science: ScienceName)

  /** The common name: the preferred one, or the English one when that is empty ("" when missing). */
  function CommonName(taxon: Record): string {
    var preferred := OptString(taxon, "preferred_common_name", "");
    if |preferred| == 0 then OptString(taxon, "english_common_name", "") else preferred
  }

  /**
    The display-name rule. A default_name object supplies the shown name;
    without one the common name is shown; without a common name the taxon's
    own (scientific) name is shown and, in the list view, the scientific-name
    line is hidden. Wherever the scientific-name line is set it shows the
    taxon's name. The rule fails exactly when a "name" it reads is missing.
  */
  function DisplayName(taxon: Record, viewType: int): (r: Outcome<NameDisplay>)
    ensures OptObject(taxon, "default_name").Some? ==>
      var dn := OptObject(taxon, "default_name").value;
      && (r.Ok? <==> "name" in dn && (viewType == ViewTypeList ==> "name" in taxon))
      && (r.Ok? ==> r.value.shown == AsText(dn["name"]))
    ensures OptObject(taxon, "default_name").None? ==>
      && (r.Ok? <==> (|CommonName(taxon)| == 0 || viewType == ViewTypeList ==> "name" in taxon))
      && (r.Ok? && |CommonName(taxon)| > 0 ==> r.value.shown == CommonName(taxon))
      && (r.Ok? && |CommonName(taxon)| == 0 ==> r.value.shown == AsText(taxon["name"]))
    ensures r.Ok? && viewType != ViewTypeList ==> r.value.science == Untouched
    ensures r.Ok? && viewType == ViewTypeList ==>
      (r.value.science == HideScience <==> OptObject(taxon, "default_name").None? && |CommonName(taxon)| == 0)
    ensures r.Ok? && r.value.science.ShowScience? ==> r.value.science.text == AsText(taxon["name"])
    ensures r.Ok? && viewType == ViewTypeList && !(OptObject(taxon, "default_name").None? && |CommonName(taxon)| == 0) ==>
      r.value.science == ShowScience(AsText(taxon["name"]))
  {
    var defaultName := OptObject(taxon, "default_name");
    if defaultName.Some? then
      match GetString(defaultName.value, "name")
      case Err(e) => Err(e)
      case Ok(shown) =>
        if viewType == ViewTypeList then
          match GetString(taxon, "name")
          case Err(e) => Err(e)
          case Ok(sci) => Ok(NameDisplay(shown, ShowScience(sci)))
        else Ok(NameDisplay(shown, Untouched))
    else
      var common := CommonName(taxon);
      if |common| == 0 then
        match GetString(taxon, "name")
        case Err(e) => Err(e)
        case Ok(name) => Ok(NameDisplay(name, if viewType == ViewTypeList then HideScience else Untouched))
      else if viewType == ViewTypeList then
        match GetString(taxon, "name")
        case Err(e) => Err(e)
        case Ok(sci) => Ok(NameDisplay(common, ShowScience(sci)))
      else Ok(NameDisplay(common, Untouched))
  }

  /** A non-empty preferred common name wins over the English one, whatever that is. */
  lemma PreferredNameWins(taxon: Record, viewType: int, english: Value)
    requires OptObject(taxon, "default_name").None?
    requires "preferred_common_name" in taxon && |AsText(taxon["preferred_common_name"])| > 0
    ensures DisplayName(taxon["english_common_name" := english], viewType) == DisplayName(taxon, viewType)
    ensures DisplayName(taxon, viewType).Ok? ==> DisplayName(taxon, viewType).value.shown == AsText(taxon["preferred_common_name"])
  {
    var t' := taxon["english_common_name" := english];
    assert OptObject(t', "default_name") == OptObject(taxon, "default_name");
    assert CommonName(t') == CommonName(taxon);
  }

  /** A default name wins over both common names, whatever they are. */
  lemma DefaultNameWins(taxon: Record, viewType: int, preferred: Value, english: Value)
    requires OptObject(taxon, "default_name").Some?
    ensures DisplayName(taxon["preferred_common_name" := preferred]["english_common_name" := english], viewType)
         == DisplayName(taxon, viewType)
  {
    var t' := taxon["preferred_common_name" := preferred]["english_common_name" := english];
    assert OptObject(t', "default_name") == OptObject(taxon, "default_name");
  }

  /** The first entry of a taxon_photos array, when the key holds a non-empty array. */
  function FirstTaxonPhoto(taxon: Record): Option<Value> {
    var photos := OptArray(taxon, "taxon_photos");
    if photos.Some? && |photos.value| > 0 then Some(photos.value[0]) else None
  }

  /**
    The photo-URL rule. The starting point is the text of photo_url ("" when
    missing). When the taxon has a taxon_photos key, a first photo whose inner
    "photo" object has a non-null medium_url replaces it (a first entry that is
    not an object fails the rule); default_photo is then never consulted. Only
    without taxon_photos does a default_photo object with a medium_url key
    replace it (a default_photo that is not an object fails the rule).
  */
  function PhotoUrl(taxon: Record): (r: Outcome<string>)
    ensures "taxon_photos" in taxon && FirstTaxonPhoto(taxon).Some? && !FirstTaxonPhoto(taxon).value.Obj? ==> r.Err?
    ensures "taxon_photos" in taxon && FirstTaxonPhoto(taxon).Some? && FirstTaxonPhoto(taxon).value.Obj? ==>
      var inner := OptObject(FirstTaxonPhoto(taxon).value.fields, "photo");
      && (inner.Some? && !IsNull(inner.value, "medium_url") ==> r == Ok(AsText(inner.value["medium_url"])))
      && (!(inner.Some? && !IsNull(inner.value, "medium_url")) ==> r == Ok(OptString(taxon, "photo_url", "")))
    ensures "taxon_photos" in taxon && FirstTaxonPhoto(taxon).None? ==> r == Ok(OptString(taxon, "photo_url", ""))
    ensures "taxon_photos" !in taxon && "default_photo" in taxon ==>
      && (!taxon["default_photo"].Obj? ==> r.Err?)
      && (taxon["default_photo"].Obj? && "medium_url" in taxon["default_photo"].fields ==>
            r == Ok(AsText(taxon["default_photo"].fields["medium_url"])))
      && (taxon["default_photo"].Obj? && "medium_url" !in taxon["default_photo"].fields ==>
            r == Ok(OptString(taxon, "photo_url", "")))
    ensures "taxon_photos" !in taxon && "default_photo" !in taxon ==> r == Ok(OptString(taxon, "photo_url", ""))
  {
    var photoUrl := OptString(taxon, "photo_url", "");
    if Has(taxon, "taxon_photos") then
      var photos := OptArray(taxon, "taxon_photos");
      if photos.Some? && |photos.value| > 0 then
        var first := photos.value[0];
        if !first.Obj? then Err(TypeMismatch("taxon_photos"))
        else
          var inner := OptObject(first.fields, "photo");
          if inner.Some? && !IsNull(inner.value, "medium_url") then Ok(OptString(inner.value, "medium_url", ""))
          else Ok(photoUrl)
      else Ok(photoUrl)
    else if Has(taxon, "default_photo") then
      match GetObject(taxon, "default_photo")
      case Err(e) => Err(e)
      case Ok(defaultPhoto) =>
        if Has(defaultPhoto, "medium_url") then GetString(defaultPhoto, "medium_url") else Ok(photoUrl)
    else Ok(photoUrl)
  }

  /** Once the taxon has a taxon_photos key, its default_photo makes no difference. */
  lemma TaxonPhotosShadowDefaultPhoto(taxon: Record, defaultPhoto: Value)
    requires "taxon_photos" in taxon
    ensures PhotoUrl(taxon["default_photo" := defaultPhoto]) == PhotoUrl(taxon)
  {
    var t' := taxon["default_photo" := defaultPhoto];
    assert OptString(t', "photo_url", "") == OptString(taxon, "photo_url", "");
    assert OptArray(t', "taxon_photos") == OptArray(taxon, "taxon_photos");
  }

  /**
    A taxon with no photo at all yields the empty URL, never null: the text
    accessors fall back to "", so a row always has a URL to record and load.
  */
  lemma NoPhotoGivesEmptyUrl(taxon: Record)
    requires "photo_url" !in taxon && "taxon_photos" !in taxon && "default_photo" !in taxon
    ensures PhotoUrl(taxon) == Ok("")
  {
  }

  /**
    The list view's count: the row's own count when it reads as an int above
    -1 (a number read as an int keeps its low 32 bits), otherwise the taxon's
    observations_count read the same way (failing when that is missing or not
    a number), so a negative row count falls back too.
  */
  function RowCount(row: Record, taxon: Record): (r: Outcome<int>)
    ensures "count" in row && row["count"].Num? && ToJavaInt(row["count"].n) >= 0 ==>
      r == Ok(ToJavaInt(row["count"].n))
    ensures !("count" in row && row["count"].Num? && ToJavaInt(row["count"].n) >= 0) ==>
      && (r.Err? <==> "observations_count" !in taxon || !taxon["observations_count"].Num?)
      && (r.Ok? ==> r.value == ToJavaInt(taxon["observations_count"].n))
    ensures "count" in row && row["count"].Num? && 0 <= row["count"].n <= IntMax ==> r == Ok(row["count"].n)
    ensures r.Ok? ==> IntMin <= r.value <= IntMax
  {
    var obsCount := OptInt(row, "count", -1);
    if obsCount > -1 then Ok(obsCount) else GetInt(taxon, "observations_count")
  }
}

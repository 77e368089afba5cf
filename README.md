# Project tabs and the species list of the iNaturalist Android app, in Dafny

This project models the decision and state logic of two screens of the
iNaturalist Android client. The rest of those screens only binds views.

- **Project list tab (`BaseTab`).** A list tab fetches its projects (or
  guides) from a background service. A broadcast receiver turns the reply into
  a list of JSON objects. The tab then builds a `ProjectsAdapter` over that
  list. The adapter keeps the list it shows (`mItems`), which the tab shares
  by reference, and a copy taken at construction (`mOriginalItems`). It can
  replace an item, prepend an item, and run a search filter. That filter
  restores the copy for an empty query, drops the answer of a query that a
  newer one overtook, and reads a failed search as an empty list. When the
  list is empty, the tab shows one of three messages, chosen by priority. The
  list is saved into the platform's state bundle and restored from it.
- **User species list (`UserSpeciesAdapter`).** For each row, `getView`
  records the photo URL and the image view under the row's position. It loads
  the photo at once only when the list is not scrolling. When scrolling stops,
  every visible row that has both entries is loaded. A photo fades in only the
  first time its row loads. Pure rules pick the row's displayed name, its
  photo URL, its count and its layout.

Modules:

- `Wrappers` (`wrappers.dfy`): a Java null becomes an `Option`, and a thrown
  `JSONException` becomes a `Result`.
- `Json` (`json.dfy`): JSON values and the `org.json` accessors the code
  calls, with the platform library's behaviour:
  - an `opt…` accessor returns a fallback;
  - a `get…` accessor throws;
  - a value read as a string is converted to text, so JSON null reads as `"null"`;
  - a number read as an int keeps its low 32 bits.
- `ProjectList` (`project_list.dfy`): the mutable `ItemList`, standing for
  `ArrayList<JSONObject>`; the `ProjectsAdapter` class; and `Decide`, the
  filter's outcome.
- `ProjectsTab` (`projects_tab.dfy`):
  - the receiver's payload handling;
  - the bundle save and load;
  - the empty-state rule;
  - the `BaseTab` class.
- `TaxonDisplay` (`taxon_display.dfy`): the name, photo-URL, count and layout
  rules of a species row.
- `SpeciesList` (`species_list.dfy`): the `UserSpeciesAdapter` class, with its
  three position-keyed maps and the log of image-loader calls.

Aliasing is modelled as the Java code has it:

- The adapter shows the tab's own list object, so `updateItem` also changes
  the list the tab later saves.
- Publishing the result of an empty query makes the current list *be* the
  snapshot object. After that, edits reach the snapshot as well.
  `EditsSpareSnapshot` shows the snapshot untouched before any search is
  cleared. `ClearSearch` shows the current list becoming the snapshot itself.

Where the model reads the code closely:

- `JSONObject.optString` never returns null. So `getView`'s null check on the
  photo URL always passes, and a taxon with no photo records and loads the
  empty URL (`NoPhotoGivesEmptyUrl`). The model keeps the check as written.
- `getView` uses the row's image view before it records anything, so a null
  view would end the call with an uncaught exception. `GetView` therefore
  takes a non-null view, the image-view map never holds null, and the
  `imageView == null` test in `loadImageByPosition` never fires. The model
  keeps that test as written.
- The receiver skips a payload element that is not an object. The bundle
  loader instead fails the whole load on such an element. Both behaviours are
  modelled as written.

## Model

| member | source | states |
|---|---|---|
| `ProjectList.ProjectsAdapter.constructor` | iNaturalist/src/main/java/org/inaturalist/android/BaseTab.java:440-445 | the adapter shows the list it is given, by reference, and keeps a fresh copy of its contents as the snapshot; no search string yet |
| `ProjectList.ProjectsAdapter.GetCount` | iNaturalist/src/main/java/org/inaturalist/android/BaseTab.java:514-516 | 0 when there is no current list, else its size |
| `ProjectList.ProjectsAdapter.UpdateItem` | iNaturalist/src/main/java/org/inaturalist/android/BaseTab.java:436-438 | succeeds exactly for an index inside the current list; then only that element changes and the length stays; the snapshot is unchanged unless it is the current list; otherwise nothing changes (where Java throws) |
| `ProjectList.ProjectsAdapter.AddItemAtBeginning` | iNaturalist/src/main/java/org/inaturalist/android/BaseTab.java:509-511 | the new item becomes element 0 and the old items follow in order; the snapshot is unchanged unless it is the current list |
| `ProjectList.Decide` | iNaturalist/src/main/java/org/inaturalist/android/BaseTab.java:451-475 | the four filter outcomes partition the inputs: no query; empty query gives the snapshot; a non-empty query is superseded exactly when the current search string differs from it; otherwise the results, a failed search reading as empty |
| `ProjectList.ProjectsAdapter.PerformFiltering` | iNaturalist/src/main/java/org/inaturalist/android/BaseTab.java:449-490 | a real search records its query (or the overtaking one); outcome per `Decide`: snapshot with count 0, null for a superseded query, a fresh list of the results with its size as count; re-fetch requested exactly when the chosen list is empty and re-calling is enabled |
| `ProjectList.ProjectsAdapter.PublishResults` | iNaturalist/src/main/java/org/inaturalist/android/BaseTab.java:493-504 | a null result keeps the current list; any other result's list becomes the current list; "changed" is signalled exactly for a positive count, "invalidated" otherwise |
| `ProjectList.ClearSearch` | iNaturalist/src/main/java/org/inaturalist/android/BaseTab.java:449-504 | filtering on the empty query and publishing makes the current list the snapshot itself, with the snapshot's size as count |
| `ProjectList.OvertakenSearch` | iNaturalist/src/main/java/org/inaturalist/android/BaseTab.java:461-467 | a search overtaken by a different query publishes nothing: the current list is unchanged and the newer query is the current search string |
| `ProjectList.EditsSpareSnapshot` | iNaturalist/src/main/java/org/inaturalist/android/BaseTab.java:436-511 | edits through a fresh adapter change the shared list (replace, then prepend) but leave the snapshot equal to the original contents |
| `ProjectsTab.CollectObjects` | iNaturalist/src/main/java/org/inaturalist/android/BaseTab.java:105-111 | the receiver's loop yields exactly the objects of the payload array in order (`ObjectsIn`) |
| `ProjectsTab.ObjectsInAppend` | iNaturalist/src/main/java/org/inaturalist/android/BaseTab.java:105-111 | the objects of a concatenation are those of the first part followed by those of the second: server order is kept |
| `ProjectsTab.ObjectsInMembers` | iNaturalist/src/main/java/org/inaturalist/android/BaseTab.java:105-111 | a value is in the built list iff it is an object element of the payload; the list is never longer than the payload |
| `ProjectsTab.ObjectsInAllObjects` | iNaturalist/src/main/java/org/inaturalist/android/BaseTab.java:105-111 | a payload with no malformed element is kept whole, element i becoming item i |
| `ProjectsTab.Delivered` | iNaturalist/src/main/java/org/inaturalist/android/BaseTab.java:74-89 | from the intent extra only a serializable JSON array is accepted (else null); in shared mode the payload is the application's result slot for the tab's name, null when empty |
| `ProjectsTab.BaseTab.OnReceive` | iNaturalist/src/main/java/org/inaturalist/android/BaseTab.java:65-115 | the new list is fresh and holds the payload's objects (empty for a null payload or null array); shared mode clears the slot; a new adapter shows that list, with a separate fresh snapshot of the same objects and no search string; the screen for its size follows |
| `ProjectsTab.EmptyMessageFor` | iNaturalist/src/main/java/org/inaturalist/android/BaseTab.java:125-145 | no message iff the list has items; for an empty list: no connection first, then login required (tab needs it, user signed out), then nothing found, each as an iff |
| `ProjectsTab.ScreenAfterLoad` | iNaturalist/src/main/java/org/inaturalist/android/BaseTab.java:118-146 | spinner hidden; the list shown and search enabled iff there are items; the label shown iff there are none, carrying `EmptyMessageFor`'s message; the login button becomes visible only for the login message and is never hidden here |
| `ProjectsTab.InitialScreen` | iNaturalist/src/main/java/org/inaturalist/android/BaseTab.java:308-331 | from the freshly inflated layout, the label and login button are hidden and search is disabled; the list, the spinner and the label text stay as the layout has them |
| `ProjectsTab.BaseTab.LoadProjectsIntoUI` | iNaturalist/src/main/java/org/inaturalist/android/BaseTab.java:118-146 | a fresh adapter shows the tab's own list, with a copy as snapshot; the screen is `ScreenAfterLoad` for the list's size, the network state and the login state |
| `ProjectsTab.BaseTab.OnCreateView` | iNaturalist/src/main/java/org/inaturalist/android/BaseTab.java:301-358 | the screen is `InitialScreen` of the inflated layout; without a list the service is asked for one; with a list it is loaded into a new adapter that shows it, with a fresh snapshot of its objects and no search string |
| `ProjectsTab.BaseTab.OnLoginResult` | iNaturalist/src/main/java/org/inaturalist/android/BaseTab.java:600-611 | a successful login hides label and login button, shows the spinner in place of the list and re-fetches; otherwise nothing changes |
| `ProjectsTab.BaseTab.UpdateProject` | iNaturalist/src/main/java/org/inaturalist/android/BaseTab.java:288-290 | replaces one item of the adapter's list when there is an adapter, a list and the index is in range; otherwise reports failure and the list is unchanged |
| `ProjectsTab.SaveListToBundle` | iNaturalist/src/main/java/org/inaturalist/android/BaseTab.java:217-222 | a null list writes nothing; otherwise exactly the key is set to the list's JSON array text |
| `ProjectsTab.LoadListFromBundle` | iNaturalist/src/main/java/org/inaturalist/android/BaseTab.java:224-243 | null when the key is missing, the text is not a JSON array, or an element is not an object; otherwise the stored objects in order (`ParseObjectList`) |
| `ProjectsTab.SerializedRoundTrip` | iNaturalist/src/main/java/org/inaturalist/android/BaseTab.java:217-243 | a saved list parses back to the same objects in the same order |
| `ProjectsTab.BaseTab.OnSaveInstanceState` | iNaturalist/src/main/java/org/inaturalist/android/BaseTab.java:211-215 | the tab's list, if any, is saved under "mProjects"; no list leaves the bundle as it was |
| `ProjectsTab.BaseTab.OnCreate` | iNaturalist/src/main/java/org/inaturalist/android/BaseTab.java:260-271 | no bundle gives no list; a bundle gives a fresh list with exactly what loads from it, or no list when nothing loads |
| `ProjectsTab.ReceiveThenEdit` | iNaturalist/src/main/java/org/inaturalist/android/BaseTab.java:436-444 | after a broadcast, an in-range edit through the adapter changes the tab's list while the snapshot keeps the delivered objects |
| `ProjectsTab.SaveThenRestore` | iNaturalist/src/main/java/org/inaturalist/android/BaseTab.java:211-271 | a tab created from the bundle another tab saved holds that tab's objects in order |
| `ProjectsTab.EmptyListAsksForLogin` | iNaturalist/src/main/java/org/inaturalist/android/BaseTab.java:135-138 | an empty list on a login-only tab with the user signed out shows the login message and button and disables search |
| `TaxonDisplay.LayoutFor` | iNaturalist/src/main/java/org/inaturalist/android/UserSpeciesAdapter.java:75-86 | cards and grid each get their own layout; every other view type gets the list row layout (each an iff) |
| `TaxonDisplay.DisplayName` | iNaturalist/src/main/java/org/inaturalist/android/UserSpeciesAdapter.java:122-137 | a default name wins; otherwise the preferred, then the English common name; without one the taxon name is shown; in the list view the scientific line is hidden iff there is neither a default name nor a common name, and otherwise its text is set to the taxon name; outside the list view that line is left alone; fails iff a needed "name" is missing |
| `TaxonDisplay.PreferredNameWins` | iNaturalist/src/main/java/org/inaturalist/android/UserSpeciesAdapter.java:128-129 | with a non-empty preferred common name, the English name has no effect and the preferred one is shown |
| `TaxonDisplay.DefaultNameWins` | iNaturalist/src/main/java/org/inaturalist/android/UserSpeciesAdapter.java:122-125 | with a default name object, neither common name has any effect |
| `TaxonDisplay.PhotoUrl` | iNaturalist/src/main/java/org/inaturalist/android/UserSpeciesAdapter.java:139-150 | the first taxon photo's non-null medium URL wins; only without a taxon_photos key does default_photo's medium URL apply; otherwise photo_url ("" when missing); fails where getJSONObject would throw |
| `TaxonDisplay.TaxonPhotosShadowDefaultPhoto` | iNaturalist/src/main/java/org/inaturalist/android/UserSpeciesAdapter.java:140-147 | once taxon_photos is present, default_photo makes no difference to the URL |
| `TaxonDisplay.NoPhotoGivesEmptyUrl` | iNaturalist/src/main/java/org/inaturalist/android/UserSpeciesAdapter.java:139-156 | a taxon with no photo keys yields the empty URL, not null |
| `TaxonDisplay.RowCount` | iNaturalist/src/main/java/org/inaturalist/android/UserSpeciesAdapter.java:170-171 | a row count whose 32-bit int value is above -1 is used as that value; otherwise (missing, not a number, or negative as an int) the taxon's observations_count is used as a 32-bit int, failing iff it is missing or not a number; always a 32-bit int |
| `SpeciesList.UserSpeciesAdapter.constructor` | iNaturalist/src/main/java/org/inaturalist/android/UserSpeciesAdapter.java:54-65 | not scrolling, all three maps empty, no loads yet |
| `SpeciesList.UserSpeciesAdapter.GetCount` | iNaturalist/src/main/java/org/inaturalist/android/UserSpeciesAdapter.java:67-70 | 0 for a null result list, else its size |
| `SpeciesList.UserSpeciesAdapter.GetView` | iNaturalist/src/main/java/org/inaturalist/android/UserSpeciesAdapter.java:72-166 | layout per `LayoutFor`; when taxon, name and URL read without an exception, that position's URL and image view are recorded and a load is issued iff not scrolling; otherwise no map and no load changes |
| `SpeciesList.UserSpeciesAdapter.LoadObsImage` | iNaturalist/src/main/java/org/inaturalist/android/UserSpeciesAdapter.java:184-210 | exactly one loader call for the given position, view and URL is added |
| `SpeciesList.UserSpeciesAdapter.OnImageLoaded` | iNaturalist/src/main/java/org/inaturalist/android/UserSpeciesAdapter.java:187-200 | fades in iff the position is not yet marked loaded; afterwards it is marked loaded and no other position changes |
| `SpeciesList.UserSpeciesAdapter.LoadImageByPosition` | iNaturalist/src/main/java/org/inaturalist/android/UserSpeciesAdapter.java:217-226 | issues a load iff both maps hold non-null entries for the position, with those entries |
| `SpeciesList.UserSpeciesAdapter.OnScrollStateChanged` | iNaturalist/src/main/java/org/inaturalist/android/UserSpeciesAdapter.java:230-243 | fling or touch-scroll sets scrolling and loads nothing; idle clears it and issues `IdleLoads` for first..last; other states change nothing |
| `SpeciesList.IdleLoadsSound` | iNaturalist/src/main/java/org/inaturalist/android/UserSpeciesAdapter.java:236-240 | every idle load is for a loadable visible position with its recorded URL and view, in strictly increasing position order |
| `SpeciesList.IdleLoadsComplete` | iNaturalist/src/main/java/org/inaturalist/android/UserSpeciesAdapter.java:236-240 | every loadable position in the visible range is loaded |
| `SpeciesList.FlingThenSettle` | iNaturalist/src/main/java/org/inaturalist/android/UserSpeciesAdapter.java:156-243 | a row drawn during a fling is not loaded then; settling with it visible issues exactly its load |
| `SpeciesList.LoadTwice` | iNaturalist/src/main/java/org/inaturalist/android/UserSpeciesAdapter.java:196-200 | of two completed loads of one row, the second never fades in |

## Left out

- `NewsArticle.java` is not part of this model. It only copies article fields into views and runs analytics sessions.
- The HTTP autocomplete request (URL building, connection, stream reading). Its answer is the `fetched` parameter of `PerformFiltering`, with `None` standing for a failed request or unparsable reply. `fetched` is unconstrained, which also covers a reply whose array holds a non-object element: the exception then ends the reading loop and the objects read before that element come back as a non-null list.
- Threads. The filter's background thread and `runOnUiThread` are not modelled. A query that overtakes a search in flight is the `overwrittenBy` parameter. Note that the platform `Filter` runs `performFiltering` calls one at a time, so in practice that guard may never fire.
- `toggleLoading` (spinner versus list) during a search is not modelled. The filter only reports when it asks the tab to re-fetch (`refetch`).
- Receiver registration and unregistration (`onResume`, `onPause`, `getProjects`) and `startService` are platform plumbing. Starting a fetch appears only as the `fetch` result of `OnCreateView`, `OnLoginResult` and `refetch`.
- `ProjectsTab.BaseTab.OnReceive` requires that in shared mode the result slot holds an array payload. The service always stores one there; anything else would make the cast throw, and that crash is not modelled.
- `ProjectsAdapter.getView`, `getShortDescription` and `getItem`, and the item-click handler. These are view binding and HTML tag stripping.
- View inflation, `findViewById` and the visibility of views other than the list, spinner, empty label and login button. The state the inflated `project_list` layout starts in is a parameter (`layout`) of the `BaseTab` constructor and of `OnCreateView`.
- The search box's visibility. Only whether it is enabled is tracked; `showSearchBar` hiding it is not modelled.
- The scientific-name line's visibility on a recycled row view. `getView` only ever hides that line and never shows it again, so a reused row that an earlier row hid keeps it hidden even when its text is set; `DisplayName` states what `getView` does to the line (`ShowScience` sets the text, `HideScience` hides it), not whether it ends up visible.
- The grid's icon size and margins (floating-point scaling and DP conversion), the card height, the iconic placeholder image, bitmap rounding, animation resources and `DecimalFormat`. `getView` computes them but they decide nothing the model tracks.
- The image library's own work. A load is recorded as a `LoadRequest`. Its completion is the separate call `OnImageLoaded`, which may come at any later time.
- `Json.AsText` renders a nested object or array as a fixed non-empty marker, not as its JSON text. The core only tests such text for emptiness.
- `Json.OptInt` and `Json.GetInt` do not parse numeric strings, which the platform library would convert. JSON numbers in the model are integral.
- JSON object identity. An `org.json` object mutated through another reference is not modelled: records are values.
- A bundle value that is not a string is not modelled.

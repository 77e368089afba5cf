/**
  The tab that lists projects or guides: it turns the fetch service's
  broadcast payload into its list, chooses what the screen shows when that
  list is empty, and saves and restores the list across a suspend.
*/
module ProjectsTab {
  import opened Wrappers
  import opened Json
  import opened ProjectList

  /**
    A Serializable the fetch service hands over: a SerializableJSONArray
    (which may wrap a null JSONArray) or some other object.
  */
  datatype Serial = ArrayPayload(contents: Option<seq<Value>>) | OtherPayload

  /** The JSON objects among `elems`, in their order; other elements are skipped. */
  function ObjectsIn(elems: seq<Value>): seq<Record>
    decreases |elems|
  {
    if elems == [] then []
    else
      var last := elems[|elems| - 1];
      ObjectsIn(elems[..|elems| - 1]) + (if last.Obj? then [last.fields] else [])
  }

  /** Collecting objects is compositional: the objects of a + b are those of a, then those of b. */
  lemma {:induction false} ObjectsInAppend(a: seq<Value>, b: seq<Value>)
    ensures ObjectsIn(a + b) == ObjectsIn(a) + ObjectsIn(b)
    decreases |b|
  {
    if b == [] {
      assert a + b == a;
    } else {
      var b' := b[..|b| - 1];
      assert (a + b)[..|a + b| - 1] == a + b';
      ObjectsInAppend(a, b');
    }
  }

  /** Nothing but objects are kept, and every object is kept. */
  lemma {:induction false} ObjectsInMembers(elems: seq<Value>)
    ensures |ObjectsIn(elems)| <= |elems|
    ensures forall r :: r in ObjectsIn(elems) <==> Obj(r) in elems
    decreases |elems|
  {
    if elems != [] {
      var front := elems[..|elems| - 1];
      ObjectsInMembers(front);
      assert elems == front + [elems[|elems| - 1]];
    }
  }

  /** A payload with no malformed element is kept whole, element by element in server order. */
  lemma {:induction false} ObjectsInAllObjects(elems: seq<Value>)
    requires forall i :: 0 <= i < |elems| ==> elems[i].Obj?
    ensures |ObjectsIn(elems)| == |elems|
    ensures forall i :: 0 <= i < |elems| ==> ObjectsIn(elems)[i] == elems[i].fields
    decreases |elems|
  {
    if elems != [] {
      ObjectsInAllObjects(elems[..|elems| - 1]);
    }
  }

  /**
    The receiver's loop over the payload array: it keeps each element that
    getJSONObject accepts and skips (after logging) each one it rejects.
  */
  method CollectObjects(elems: seq<Value>) returns (list: seq<Record>)
    ensures list == ObjectsIn(elems)
  {
    list := [];
    var i := 0;
    while i < |elems|
      invariant 0 <= i <= |elems|
      invariant list == ObjectsIn(elems[..i])
    {
      assert elems[..i + 1][..i] == elems[..i];
      if elems[i].Obj? {
        list := list + [elems[i].fields];
      }
      i := i + 1;
    }
    assert elems[..i] == elems;
  }

  /**
    The payload the receiver works on. From the broadcast's extra it takes only
    a SerializableJSONArray; from the application's result slot it takes
    whatever the service stored there under the tab's result name.
  */
  function Delivered(isSharedOnApp: bool, extra: Option<Serial>, slots: map<string, Serial>, name: string): (p: Option<Serial>)
    ensures !isSharedOnApp ==> (p.Some? <==> extra.Some? && extra.value.ArrayPayload?)
    ensures !isSharedOnApp && p.Some? ==> p == extra
    ensures isSharedOnApp ==> (p.Some? <==> name in slots)
    ensures isSharedOnApp && p.Some? ==> p.value == slots[name]
  {
    if !isSharedOnApp then
      (if extra.Some? && extra.value.ArrayPayload? then extra else None)
    else if name in slots then Some(slots[name])
    else None
  }

  /** The list a delivered payload becomes: empty without an array, else its objects. */
  function PayloadObjects(p: Option<Serial>): seq<Record> {
    if p.Some? && p.value.ArrayPayload? && p.value.contents.Some? then ObjectsIn(p.value.contents.value) else []
  }

  /** A string stored in a Bundle: the text of some JSON value, or text that is not JSON. */
  datatype StoredText = JsonText(value: Value) | NotJson

  /** android.os.Bundle, as far as the tab uses it: strings under keys. */
  class Bundle {
    var strings: map<string, StoredText>

    constructor ()
      ensures strings == map[]
    {
      strings := map[];
    }
  }

  /** new JSONArray(list).toString(): the text of an array holding the list's objects. */
  function Serialized(list: seq<Record>): StoredText {
    JsonText(Arr(seq(|list|, i requires 0 <= i < |list| => Obj(list[i]))))
  }

  /**
    What loadListFromBundle makes of a stored string: the objects of a JSON
    array; null when the text is not an array or one element is not an object
    (the whole load then fails, unlike the receiver, which skips that element).
  */
  function ParseObjectList(t: StoredText): Option<seq<Record>> {
    if t.JsonText? && t.value.Arr? && forall i :: 0 <= i < |t.value.elems| ==> t.value.elems[i].Obj? then
      Some(seq(|t.value.elems|, i requires 0 <= i < |t.value.elems| => t.value.elems[i].fields))
    else None
  }

  /** A saved list loads back as the same objects in the same order. */
  lemma SerializedRoundTrip(list: seq<Record>)
    ensures ParseObjectList(Serialized(list)) == Some(list)
  {
    var e := Serialized(list).value.elems;
    assert forall i :: 0 <= i < |e| ==> e[i] == Obj(list[i]);
    var back := seq(|e|, i requires 0 <= i < |e| => e[i].fields);
    assert back == list;
  }

  /** saveListToBundle: stores the list's JSON text under `key`; a null list writes nothing. */
  method SaveListToBundle(outState: Bundle, list: ItemList?, key: string)
    modifies outState
    ensures list == null ==> outState.strings == old(outState.strings)
    ensures list != null ==> outState.strings == old(outState.strings)[key := Serialized(list.elems)]
  {
    if list != null {
      outState.strings := outState.strings[key := Serialized(list.elems)];
    }
  }

  /**
    loadListFromBundle: null when nothing is stored under `key` or the stored
    text does not parse as an array of objects; otherwise those objects in order.
  */
  method LoadListFromBundle(saved: Bundle, key: string) returns (r: Option<seq<Record>>)
    ensures key !in saved.strings ==> r == None
    ensures key in saved.strings ==> r == ParseObjectList(saved.strings[key])
  {
    if key !in saved.strings {
      return None;
    }
    var text := saved.strings[key];
    if !text.JsonText? || !text.value.Arr? {
      return None;
    }
    var arr := text.value.elems;
    var results: seq<Record> := [];
    var i := 0;
    while i < |arr|
      invariant 0 <= i <= |arr|
      invariant |results| == i
      invariant forall k :: 0 <= k < i ==> arr[k].Obj? && results[k] == arr[k].fields
    {
      if !arr[i].Obj? {
        return None;
      }
      results := results + [arr[i].fields];
      i := i + 1;
    }
    assert results == seq(|arr|, k requires 0 <= k < |arr| => arr[k].fields);
    return Some(results);
  }

  /** The explanation the empty-list label shows. */
  datatype EmptyMessage = NoInternet | LoginRequired | NoItemsFound

  /** The parts of the tab's screen the list load decides. */
  datatype Screen = Screen(
    listVisible: bool,
    progressVisible: bool,
    labelVisible: bool,
    message: Option<EmptyMessage>,
    searchEnabled: bool,
    loginVisible: bool)

  /**
    The empty-list message for a list of `count` items: none for a non-empty
    list; otherwise no connection first, then a login the tab needs and the
    user lacks, then plain "nothing found".
  */
  function EmptyMessageFor(count: nat, networkAvailable: bool, requiresLogin: bool, loggedIn: bool): (m: Option<EmptyMessage>)
    ensures m == None <==> count > 0
    ensures m == Some(NoInternet) <==> count == 0 && !networkAvailable
    ensures m == Some(LoginRequired) <==> count == 0 && networkAvailable && requiresLogin && !loggedIn
    ensures m == Some(NoItemsFound) <==> count == 0 && networkAvailable && (!requiresLogin || loggedIn)
  {
    if count > 0 then None
    else if !networkAvailable then Some(NoInternet)
    else if requiresLogin && !loggedIn then Some(LoginRequired)
    else Some(NoItemsFound)
  }

  /**
    The screen after loadProjectsIntoUI shows a list of `count` items: the
    spinner goes; a non-empty list is shown with search enabled and the label
    hidden (its text untouched); an empty list hides the list, disables search
    and shows the label with its message, and the login message also reveals
    the login button. Nothing else hides that button.
  */
  function ScreenAfterLoad(before: Screen, count: nat, networkAvailable: bool, requiresLogin: bool, loggedIn: bool): (s: Screen)
    ensures !s.progressVisible
    ensures s.listVisible <==> count > 0
    ensures s.searchEnabled <==> count > 0
    ensures s.labelVisible <==> count == 0
    ensures count > 0 ==> s.message == before.message
    ensures count == 0 ==> s.message == EmptyMessageFor(count, networkAvailable, requiresLogin, loggedIn)
    ensures s.loginVisible <==> before.loginVisible || (count == 0 && s.message == Some(LoginRequired))
  {
    var m := EmptyMessageFor(count, networkAvailable, requiresLogin, loggedIn);
    if m.None? then
      before.(listVisible := true, progressVisible := false, labelVisible := false, searchEnabled := true)
    else
      before.(listVisible := false, progressVisible := false, labelVisible := true, message := m,
              searchEnabled := false, loginVisible := before.loginVisible || m == Some(LoginRequired))
  }

  /**
    The screen onCreateView sets up before any list is loaded, starting from
    the freshly inflated layout `inflated`: the label and the login button are
    hidden and search is disabled; the list, the spinner and the label's text
    stay as the layout has them.
  */
  function InitialScreen(inflated: Screen): (s: Screen)
    ensures !s.labelVisible && !s.loginVisible && !s.searchEnabled
    ensures s.listVisible == inflated.listVisible && s.progressVisible == inflated.progressVisible
    ensures s.message == inflated.message
  {
    inflated.(labelVisible := false, searchEnabled := false, loginVisible := false)
  }

  /** The application object: login state and the service's in-process result slots. */
  class App {
    var loggedIn: bool
    var serviceResults: map<string, Serial>

    constructor (loggedIn: bool, serviceResults: map<string, Serial>)
      ensures this.loggedIn == loggedIn && this.serviceResults == serviceResults
    {
      this.loggedIn := loggedIn;
      this.serviceResults := serviceResults;
    }
  }

  /** The key onSaveInstanceState and onCreate use for the list. */
  const ProjectsKey: string := "mProjects"

  /** BaseTab: one list tab, as far as its list and its empty state go. */
  class BaseTab {
    /** getFilterResultName: the broadcast and result slot this tab listens to. */
    const resultName: string
    /** requiresLogin: whether the tab's list needs a signed-in user. */
    const requiresLogin: bool
    const app: App
    /** mProjects: the loaded list; null until one is received or restored. */
    var projects: ItemList?
    /** mAdapter: the adapter over mProjects, rebuilt on every load. */
    var adapter: ProjectsAdapter?
    var screen: Screen

    /** A tab whose view is not yet created; `layout` is what its project_list layout shows when inflated. */
    constructor (resultName: string, requiresLogin: bool, app: App, layout: Screen)
      ensures this.resultName == resultName && this.requiresLogin == requiresLogin && this.app == app
      ensures projects == null && adapter == null && screen == layout
    {
      this.resultName := resultName;
      this.requiresLogin := requiresLogin;
      this.app := app;
      projects := null;
      adapter := null;
      screen := layout;
    }

    /**
      onCreate: a fresh start has no list; a restart takes the list saved in
      the bundle, or none when it cannot be loaded.
    */
    method OnCreate(saved: Bundle?)
      modifies this`projects
      ensures saved == null ==> projects == null
      ensures saved != null ==> var r := if ProjectsKey in saved.strings then ParseObjectList(saved.strings[ProjectsKey]) else None;
                                (projects == null <==> r.None?) && (projects != null ==> fresh(projects) && projects.elems == r.value)
    {
      if saved == null {
        projects := null;
      } else {
        var r := LoadListFromBundle(saved, ProjectsKey);
        if r.Some? {
          projects := new ItemList(r.value);
        } else {
          projects := null;
        }
      }
    }

    /** onSaveInstanceState: saves the list (if there is one) under its key. */
    method OnSaveInstanceState(outState: Bundle)
      modifies outState
      ensures projects == null ==> outState.strings == old(outState.strings)
      ensures projects != null ==> outState.strings == old(outState.strings)[ProjectsKey := Serialized(projects.elems)]
    {
      SaveListToBundle(outState, projects, ProjectsKey);
    }

    /**
      loadProjectsIntoUI: builds a new adapter that shows the list itself (and
      snapshots it) and updates the screen for the list's size.
    */
    method LoadProjectsIntoUI(networkAvailable: bool)
      requires projects != null
      modifies this`adapter, this`screen
      ensures fresh(adapter) && fresh(adapter.originalItems)
      ensures adapter.items == projects && adapter.originalItems.elems == projects.elems
      ensures adapter.currentSearchString == None
      ensures screen == ScreenAfterLoad(old(screen), |projects.elems|, networkAvailable, requiresLogin, app.loggedIn)
    {
      adapter := new ProjectsAdapter(projects);
      screen := ScreenAfterLoad(screen, |projects.elems|, networkAvailable, requiresLogin, app.loggedIn);
    }

    /**
      onCreateView: resets the login button, label and search box, then either
      asks the fetch service for the list (`fetch`) or shows the list it has.
    */
    method OnCreateView(layout: Screen, networkAvailable: bool) returns (fetch: bool)
      modifies this`adapter, this`screen
      ensures fetch <==> projects == null
      ensures fetch ==> screen == InitialScreen(layout) && adapter == old(adapter)
      ensures !fetch ==> fresh(adapter) && adapter.items == projects
      ensures !fetch ==> fresh(adapter.originalItems) && adapter.originalItems.elems == projects.elems
      ensures !fetch ==> adapter.currentSearchString == None
      ensures !fetch ==> screen == ScreenAfterLoad(InitialScreen(layout), |projects.elems|, networkAvailable, requiresLogin, app.loggedIn)
    {
      screen := InitialScreen(layout);
      fetch := projects == null;
      if !fetch {
        LoadProjectsIntoUI(networkAvailable);
      }
    }

    /**
      ProjectsReceiver.onReceive: finds the payload (a shared-result delivery
      also clears the slot), turns it into a fresh list and loads it.
    */
    method OnReceive(isSharedOnApp: bool, extra: Option<Serial>, networkAvailable: bool)
      requires isSharedOnApp && resultName in app.serviceResults ==> app.serviceResults[resultName].ArrayPayload?
      modifies this`projects, this`adapter, this`screen, app`serviceResults
      ensures isSharedOnApp ==> app.serviceResults == old(app.serviceResults) - {resultName}
      ensures !isSharedOnApp ==> app.serviceResults == old(app.serviceResults)
      ensures projects != null && fresh(projects)
      ensures projects.elems == PayloadObjects(Delivered(isSharedOnApp, extra, old(app.serviceResults), resultName))
      ensures fresh(adapter) && adapter.items == projects && adapter.originalItems.elems == projects.elems
      ensures fresh(adapter.originalItems) && adapter.originalItems != adapter.items
      ensures adapter.currentSearchString == None
      ensures screen == ScreenAfterLoad(old(screen), |projects.elems|, networkAvailable, requiresLogin, app.loggedIn)
    {
      var payload: Option<Serial>;
      if !isSharedOnApp {
        payload := if extra.Some? && extra.value.ArrayPayload? then extra else None;
      } else {
        payload := if resultName in app.serviceResults then Some(app.serviceResults[resultName]) else None;
        app.serviceResults := app.serviceResults - {resultName};
      }
      var list: seq<Record> := [];
      if payload.Some? && payload.value.ArrayPayload? && payload.value.contents.Some? {
        list := CollectObjects(payload.value.contents.value);
      }
      projects := new ItemList(list);
      LoadProjectsIntoUI(networkAvailable);
    }

    /**
      onActivityResult for the login screen: after a successful login the label
      and login button are hidden, the spinner replaces the list and the list
      is fetched again (`fetch`); any other result changes nothing.
    */
    method OnLoginResult(loginSucceeded: bool) returns (fetch: bool)
      modifies this`screen
      ensures fetch <==> loginSucceeded
      ensures fetch ==> screen == old(screen).(labelVisible := false, loginVisible := false,
                                                listVisible := false, progressVisible := true)
      ensures !fetch ==> screen == old(screen)
    {
      fetch := loginSucceeded;
      if fetch {
        screen := screen.(labelVisible := false, loginVisible := false);
        screen := screen.(listVisible := false, progressVisible := true);
      }
    }

    /** updateProject: replaces one item through the adapter, if there is one. */
    method UpdateProject(index: int, project: Record) returns (ok: bool)
      modifies if adapter != null && adapter.items != null then {adapter.items} else {}
      ensures ok <==> adapter != null && adapter.items != null && 0 <= index < |old(adapter.items.elems)|
      ensures ok ==> adapter.items.elems == old(adapter.items.elems)[index := project]
      ensures !ok && adapter != null && adapter.items != null ==> adapter.items.elems == old(adapter.items.elems)
    {
      ok := false;
      if adapter != null {
        ok := adapter.UpdateItem(index, project);
      }
    }
  }

  /**
    An edit made through the adapter a broadcast built reaches the tab's list
    but not the adapter's snapshot, which keeps the delivered objects.
  */
  method ReceiveThenEdit(tab: BaseTab, extra: Option<Serial>, index: int, obj: Record)
    modifies tab, tab.app
    ensures tab.adapter != null && tab.projects != null
    ensures tab.adapter.originalItems.elems == PayloadObjects(Delivered(false, extra, old(tab.app.serviceResults), tab.resultName))
    ensures 0 <= index < |tab.adapter.originalItems.elems| ==>
      tab.projects.elems == tab.adapter.originalItems.elems[index := obj]
  {
    tab.OnReceive(false, extra, true);
    var _ := tab.adapter.UpdateItem(index, obj);
  }

  /**
    Suspend and restore: a tab that saved its list into a bundle and a tab
    created from that bundle hold the same objects in the same order.
  */
  method SaveThenRestore(tab: BaseTab, outState: Bundle, restored: BaseTab)
    requires tab.projects != null
    modifies outState, restored`projects
    ensures restored.projects != null && restored.projects.elems == old(tab.projects.elems)
  {
    tab.OnSaveInstanceState(outState);
    SerializedRoundTrip(tab.projects.elems);
    restored.OnCreate(outState);
  }

  /**
    A tab that needs a login and loads an empty list while the network is up
    and the user is signed out shows the login message and the login button,
    with search disabled.
  */
  method EmptyListAsksForLogin(tab: BaseTab)
    requires tab.requiresLogin && !tab.app.loggedIn
    modifies tab
    ensures tab.screen.message == Some(LoginRequired) && tab.screen.loginVisible && !tab.screen.searchEnabled
  {
    tab.projects := new ItemList([]);
    tab.LoadProjectsIntoUI(true);
  }
}

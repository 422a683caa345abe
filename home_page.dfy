/** The home page component: its state fields, the loads that update them, the
    effects that decide when loads and the live subscription run, the handler for
    live items, and the classification of what the page renders. Each method is one
    completed step; asynchronous interleavings of steps are not modelled. */
module HomePage {
  import opened Wrappers
  import opened SanityTypes
  import opened ContentMerge
  import opened SanityClient

  const LoadContentToast: Toast := Toast("Error Loading Content",
    "There was an issue fetching the latest content. Check Sanity configuration and network.", true)
  const InitialDataToast: Toast := Toast("Error Loading Page Data",
    "Could not load essential data. Check Sanity setup and network.", true)
  const InitialDataHint: string :=
    " Please check your Sanity configuration (Project ID, Dataset, CORS) and network connection."

  /** The page error after a failed initial load: the client's message, then the hint. */
  function InitialDataError(detail: string): (message: string)
    ensures detail <= message && message != ""
  {
    detail + InitialDataHint
  }

  /** The toast announcing an admitted live item. */
  function NewContentToast(item: ContentItem): (t: Toast)
    ensures !t.destructive && |t.description| > |item.title| && item.title <= t.description[1..]
  {
    Toast("New Content Added!", "\"" + item.title + "\" is now available.", false)
  }

  // ---------------------------------------------------------------------------
  // What the page renders

  /** The page either returns the full-page error alone, or the listing with the
      filter controls and whichever of its parts apply. */
  datatype View =
    | BlockingError(message: string)
    | Listing(firstLoadSpinner: bool, inlineError: Option<string>, noContent: bool,
              connectionFailed: bool, grid: seq<ContentItem>, updatingSpinner: bool)

  /** How many of the mutually exclusive main states a view shows: the full-page
      error, the first-load spinner, the grid, "No Content Found" and "Connection
      Failed". */
  function MainStates(v: View): (n: nat)
    ensures v.BlockingError? ==> n == 1
  {
    match v
    case BlockingError(_) => 1
    case Listing(spinner, _, none, failed, grid, _) =>
      (if spinner then 1 else 0) + (if grid != [] then 1 else 0)
      + (if none then 1 else 0) + (if failed then 1 else 0)
  }

  /** The render conditions of the component. */
  function Render(items: seq<ContentItem>, isLoading: bool, error: Option<string>, failed: bool): (v: View)
    ensures v.BlockingError? <==> Truthy(error) && items == [] && !isLoading
    ensures v.BlockingError? ==> v.message == error.value
    ensures v.Listing? ==> (v.inlineError.Some? <==> Truthy(error)) && v.grid == items
    ensures v.Listing? ==> (v.firstLoadSpinner <==> isLoading && items == [])
    ensures v.Listing? ==> (v.noContent <==> !isLoading && !Truthy(error) && items == [] && !failed)
    ensures v.Listing? ==> (v.connectionFailed <==> failed && items == [] && !isLoading)
    ensures v.Listing? && v.connectionFailed ==> !Truthy(error)
    ensures v.Listing? && v.updatingSpinner <==> v.Listing? && isLoading && items != []
    ensures MainStates(v) == 1
  {
    if Truthy(error) && |items| == 0 && !isLoading then BlockingError(error.value)
    else Listing(
      firstLoadSpinner := isLoading && |items| == 0,
      inlineError := if Truthy(error) && (|items| > 0 || isLoading) then error else None,
      noContent := !isLoading && !Truthy(error) && |items| == 0 && !failed,
      connectionFailed := failed && |items| == 0 && !isLoading,
      grid := items,
      updatingSpinner := isLoading && |items| > 0)
  }

  // ---------------------------------------------------------------------------
  // The component's state

  class HomePage {
    const cfg: Config
    var contentItems: seq<ContentItem>
    var allCategories: seq<string>
    var selectedCategory: string
    var searchTerm: string
    var isLoading: bool
    var error: Option<string>
    var sanityConnectionFailed: bool
    /** The listener made by the latest run of the subscription effect, if it subscribed. */
    var listener: Option<Listener>
    var toasts: seq<Toast>

    /** The state of the first render. */
    constructor (cfg: Config)
      ensures this.cfg == cfg
      ensures contentItems == [] && allCategories == [] && selectedCategory == "all" && searchTerm == ""
      ensures isLoading && error == None && !sanityConnectionFailed && listener == None && toasts == []
    {
      this.cfg := cfg;
      contentItems, allCategories := [], [];
      selectedCategory, searchTerm := "all", "";
      isLoading, error, sanityConnectionFailed := true, None, false;
      listener, toasts := None, [];
    }

    /** What the page currently renders. */
    function CurrentView(): (v: View)
      reads this
    {
      Render(contentItems, isLoading, error, sanityConnectionFailed)
    }

    /** `loadContent`: a successful fetch replaces the list wholesale; a failed one
        keeps the list and records the error. Loading is over either way. */
    method LoadContent(category: string, term: string, store: GroqQuery -> Response<seq<ContentItem>>)
      modifies this
      ensures var outcome := ContentItemsOutcome(cfg, ContentFilter(Some(category), Some(term)), store);
        && (outcome.Ok? ==> contentItems == outcome.value && error == None && toasts == old(toasts))
        && (outcome.Err? ==> contentItems == old(contentItems) && error == Some(outcome.error)
                             && toasts == old(toasts) + [LoadContentToast])
      ensures !isLoading
      ensures allCategories == old(allCategories) && selectedCategory == old(selectedCategory)
      ensures searchTerm == old(searchTerm) && sanityConnectionFailed == old(sanityConnectionFailed)
      ensures listener == old(listener)
    {
      isLoading := true;
      error := None;
      var items := FetchContentItems(cfg, ContentFilter(Some(category), Some(term)), store);
      match items {
        case Ok(fetched) =>
          contentItems := fetched;
        case Err(message) =>
          error := Some(message);
          toasts := toasts + [LoadContentToast];
      }
      isLoading := false;
    }

    /** `loadInitialData`: fetch the categories, then the unfiltered content. Only a
        failure of the category fetch marks the connection as failed, because
        `loadContent` catches its own errors. */
    method LoadInitialData(categoriesStore: GroqQuery -> Response<Option<seq<string>>>,
                           contentStore: GroqQuery -> Response<seq<ContentItem>>)
      modifies this
      ensures sanityConnectionFailed <==> FetchCategories(cfg, categoriesStore).Err?
      ensures var cats := FetchCategories(cfg, categoriesStore);
        cats.Err? ==> && error == Some(InitialDataError(cats.error))
                      && contentItems == old(contentItems) && allCategories == old(allCategories)
                      && toasts == old(toasts) + [InitialDataToast]
      ensures var cats := FetchCategories(cfg, categoriesStore);
        cats.Ok? ==> allCategories == cats.value
      ensures var outcome := ContentItemsOutcome(cfg, ContentFilter(Some("all"), Some("")), contentStore);
        FetchCategories(cfg, categoriesStore).Ok? ==>
          && (outcome.Ok? ==> contentItems == outcome.value && error == None && toasts == old(toasts))
          && (outcome.Err? ==> contentItems == old(contentItems) && error == Some(outcome.error)
                               && toasts == old(toasts) + [LoadContentToast])
      ensures !isLoading
      ensures selectedCategory == old(selectedCategory) && searchTerm == old(searchTerm)
      ensures listener == old(listener)
    {
      isLoading := true;
      error := None;
      sanityConnectionFailed := false;
      var cats := FetchCategories(cfg, categoriesStore);
      if cats.Ok? {
        allCategories := cats.value;
        LoadContent("all", "", contentStore);
      } else {
        error := Some(InitialDataError(cats.error));
        sanityConnectionFailed := true;
        toasts := toasts + [InitialDataToast];
      }
      isLoading := false;
    }

    /** The effect keyed on the filters and the connection flag: reload with the
        current filters unless the connection failed. */
    method FilterEffect(store: GroqQuery -> Response<seq<ContentItem>>)
      modifies this
      ensures old(sanityConnectionFailed) ==> unchanged(this)
      ensures !old(sanityConnectionFailed) ==>
        var outcome := ContentItemsOutcome(cfg, ContentFilter(Some(selectedCategory), Some(searchTerm)), store);
        && (outcome.Ok? ==> contentItems == outcome.value && error == None && toasts == old(toasts))
        && (outcome.Err? ==> contentItems == old(contentItems) && error == Some(outcome.error)
                             && toasts == old(toasts) + [LoadContentToast])
        && !isLoading
      ensures allCategories == old(allCategories) && selectedCategory == old(selectedCategory)
      ensures searchTerm == old(searchTerm) && sanityConnectionFailed == old(sanityConnectionFailed)
      ensures listener == old(listener)
    {
      if !sanityConnectionFailed {
        LoadContent(selectedCategory, searchTerm, store);
      }
    }

    /** The subscription effect: the previous listener is released, and a new one is
        made only while the connection has not failed. Effects run in the browser,
        so `window` is defined. */
    method SubscriptionEffect(listenThrows: bool)
      modifies this`listener
      ensures sanityConnectionFailed ==> listener == None
      ensures !sanityConnectionFailed ==> listener == Some(SubscribeToContentUpdates(cfg, true, listenThrows))
    {
      if sanityConnectionFailed {
        listener := None;
      } else {
        listener := Some(SubscribeToContentUpdates(cfg, true, listenThrows));
      }
    }

    /** `setSelectedCategory` from the filter controls. A new value re-runs the
        filter effect and, since `handleNewItem` changes with it, re-subscribes; the
        same value is no state change and runs nothing. */
    method SelectCategory(category: string, store: GroqQuery -> Response<seq<ContentItem>>, listenThrows: bool)
      modifies this
      ensures category == old(selectedCategory) ==> unchanged(this)
      ensures selectedCategory == category && searchTerm == old(searchTerm)
      ensures sanityConnectionFailed == old(sanityConnectionFailed) && allCategories == old(allCategories)
      ensures category != old(selectedCategory) && old(sanityConnectionFailed) ==>
        && contentItems == old(contentItems) && error == old(error) && listener == None
        && isLoading == old(isLoading) && toasts == old(toasts)
      ensures category != old(selectedCategory) && !old(sanityConnectionFailed) ==>
        var outcome := ContentItemsOutcome(cfg, ContentFilter(Some(category), Some(searchTerm)), store);
        && (outcome.Ok? ==> contentItems == outcome.value && error == None && toasts == old(toasts))
        && (outcome.Err? ==> contentItems == old(contentItems) && error == Some(outcome.error)
                             && toasts == old(toasts) + [LoadContentToast])
        && !isLoading
        && listener == Some(SubscribeToContentUpdates(cfg, true, listenThrows))
    {
      if category != selectedCategory {
        selectedCategory := category;
        FilterEffect(store);
        SubscriptionEffect(listenThrows);
      }
    }

    /** `setSearchTerm` from the filter controls; as `SelectCategory`. */
    method ChangeSearchTerm(term: string, store: GroqQuery -> Response<seq<ContentItem>>, listenThrows: bool)
      modifies this
      ensures term == old(searchTerm) ==> unchanged(this)
      ensures searchTerm == term && selectedCategory == old(selectedCategory)
      ensures sanityConnectionFailed == old(sanityConnectionFailed) && allCategories == old(allCategories)
      ensures term != old(searchTerm) && old(sanityConnectionFailed) ==>
        && contentItems == old(contentItems) && error == old(error) && listener == None
        && isLoading == old(isLoading) && toasts == old(toasts)
      ensures term != old(searchTerm) && !old(sanityConnectionFailed) ==>
        var outcome := ContentItemsOutcome(cfg, ContentFilter(Some(selectedCategory), Some(term)), store);
        && (outcome.Ok? ==> contentItems == outcome.value && error == None && toasts == old(toasts))
        && (outcome.Err? ==> contentItems == old(contentItems) && error == Some(outcome.error)
                             && toasts == old(toasts) + [LoadContentToast])
        && !isLoading
        && listener == Some(SubscribeToContentUpdates(cfg, true, listenThrows))
    {
      if term != searchTerm {
        searchTerm := term;
        FilterEffect(store);
        SubscriptionEffect(listenThrows);
      }
    }

    /** `handleNewItem`: apply the updater to the list and announce an admitted item. */
    method HandleNewItem(item: ContentItem)
      modifies this`contentItems, this`toasts
      ensures var m := MergeNewItem(old(contentItems), item, selectedCategory, searchTerm);
        && contentItems == m.items
        && toasts == old(toasts) + (if m.notify then [NewContentToast(item)] else [])
    {
      var m := MergeNewItem(contentItems, item, selectedCategory, searchTerm);
      contentItems := m.items;
      if m.notify {
        toasts := toasts + [NewContentToast(item)];
      }
    }

    /** A listener event: it reaches `handleNewItem` only through a live listener and
        only when the feed filter lets it through. */
    method OnListenerEvent(u: ListenUpdate)
      modifies this`contentItems, this`toasts
      ensures listener == None || Deliver(listener.value, u) == None ==> unchanged(this)
      ensures listener.Some? && Deliver(listener.value, u).Some? ==>
        var m := MergeNewItem(old(contentItems), u.result.value, selectedCategory, searchTerm);
        && contentItems == m.items
        && toasts == old(toasts) + (if m.notify then [NewContentToast(u.result.value)] else [])
    {
      if listener.Some? {
        match Deliver(listener.value, u) {
          case Some(item) => HandleNewItem(item);
          case None =>
        }
      }
    }
  }

  /** The first render, the initial load, and then the filter and subscription
      effects: on success their first runs, on failure their re-runs after the
      connection flag changed. */
  method Mount(cfg: Config,
               categoriesStore: GroqQuery -> Response<Option<seq<string>>>,
               contentStore: GroqQuery -> Response<seq<ContentItem>>,
               listenThrows: bool) returns (page: HomePage)
    ensures fresh(page) && page.cfg == cfg
    ensures page.sanityConnectionFailed <==> FetchCategories(cfg, categoriesStore).Err?
    ensures !page.sanityConnectionFailed ==> page.listener == Some(SubscribeToContentUpdates(cfg, true, listenThrows))
    ensures page.sanityConnectionFailed ==>
      && page.listener == None && page.contentItems == []
      && page.CurrentView() == BlockingError(InitialDataError(FetchCategories(cfg, categoriesStore).error))
  {
    page := new HomePage(cfg);
    page.LoadInitialData(categoriesStore, contentStore);
    page.FilterEffect(contentStore);
    page.SubscriptionEffect(listenThrows);
  }
}

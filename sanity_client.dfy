/** The content-store client: the query builders behind `fetchContentItems`,
    `fetchCategories` and `fetchProductBySlug`, the live-update filter behind
    `subscribeToContentUpdates`, and the outcome mapping of `createProductEnquiry`.
    The store itself is a parameter: a function from the query sent to the answer
    the store gives, which is either a value or a thrown error. */
module SanityClient {
  import opened Wrappers
  import opened SanityTypes
  import Text

  // ---------------------------------------------------------------------------
  // Configuration and the store boundary

  /** The client configuration: the project id the config module settled on
      (`'mockProjectId'` when none is set) and whether a write token produced a
      write client. */
  datatype Config = Config(projectId: string, hasWriteClient: bool)

  /** The not-configured check shared by every read. */
  predicate IsConfigured(cfg: Config)
  {
    cfg.projectId != "" && cfg.projectId != "mockProjectId"
  }

  /** A GROQ query as sent: its text and its parameter record. */
  datatype GroqQuery = GroqQuery(text: string, params: map<string, string>)

  /** What the store answers: a value, or a thrown error with its message
      (`error.message` for an `Error`, `String(error)` otherwise). */
  datatype Response<+T> = Returned(value: T) | Threw(detail: string)

  /** The filter argument of `fetchContentItems`; an absent filter is both fields absent. */
  datatype ContentFilter = ContentFilter(category: Option<string>, searchTerm: Option<string>)

  // ---------------------------------------------------------------------------
  // fetchContentItems

  const PostSelector: string := "*[_type == \"post\"]"
  const CategoryClause: string := "[category == $category]"
  // The verifier reads the characters of a string literal only up to 44 characters
  // long, so the texts the proofs below look into are written in shorter pieces.
  const SearchClause: string := "[title match $searchTerm + \"*\" || " + "excerpt match $searchTerm + \"*\"]"
  const ContentItemFields: string :=
    "\n" + "  _id,\n  _type,\n  _createdAt,\n  _updatedAt,\n  title,\n  slug,\n  excerpt,\n  mainImage, // Fetches the image asset reference\n  category,\n  body\n"
  const ContentProjection: string := "{" + ContentItemFields + "} | order(_createdAt desc)"
  const ContentItemsFailure: string := "Sanity API request for content items failed. "

  /** The category clause is added for a non-empty category other than `'all'`. */
  predicate CategoryActive(f: ContentFilter)
  {
    Truthy(f.category) && f.category.value != "all"
  }

  /** The search clause is added for a non-empty search term. */
  predicate SearchActive(f: ContentFilter)
  {
    Truthy(f.searchTerm)
  }

  /** The query `fetchContentItems` sends for `f`: the post selector, then the
      category clause, then the search clause, then the projection and ordering;
      each clause comes with its parameter and only when its filter is active. */
  function ContentQuery(f: ContentFilter): (q: GroqQuery)
    ensures "category" in q.params <==> CategoryActive(f)
    ensures "category" in q.params ==> q.params["category"] == f.category.value
    ensures "searchTerm" in q.params <==> SearchActive(f)
    ensures "searchTerm" in q.params ==> q.params["searchTerm"] == f.searchTerm.value
    ensures q.params.Keys <= {"category", "searchTerm"}
  {
    var cat := if CategoryActive(f) then CategoryClause else "";
    var search := if SearchActive(f) then SearchClause else "";
    GroqQuery(
      PostSelector + cat + search + ContentProjection,
      (if CategoryActive(f) then map["category" := f.category.value] else map[])
        + (if SearchActive(f) then map["searchTerm" := f.searchTerm.value] else map[]))
  }

  /** Where the clauses of `ContentQuery(f)` stand, and which parameters it binds. */
  lemma ContentQueryShape(f: ContentFilter)
    ensures var q := ContentQuery(f);
      && PostSelector <= q.text
      && (Text.OccursAt(q.text, CategoryClause, |PostSelector|) <==> CategoryActive(f))
      && (var at := |PostSelector| + if CategoryActive(f) then |CategoryClause| else 0;
          Text.OccursAt(q.text, SearchClause, at) <==> SearchActive(f))
      && |ContentProjection| <= |q.text| && q.text[|q.text| - |ContentProjection|..] == ContentProjection
    ensures |ContentQuery(f).text| == |PostSelector| + (if CategoryActive(f) then |CategoryClause| else 0)
      + (if SearchActive(f) then |SearchClause| else 0) + |ContentProjection|
  {
    var cat := if CategoryActive(f) then CategoryClause else "";
    var search := if SearchActive(f) then SearchClause else "";
    QueryTextShape(cat, search);
  }

  /** Where the clauses stand in a query text assembled from optional clauses. */
  lemma QueryTextShape(cat: string, search: string)
    requires cat == "" || cat == CategoryClause
    requires search == "" || search == SearchClause
    ensures var text := PostSelector + cat + search + ContentProjection;
      && PostSelector <= text
      && (Text.OccursAt(text, CategoryClause, |PostSelector|) <==> cat != "")
      && (Text.OccursAt(text, SearchClause, |PostSelector| + |cat|) <==> search != "")
      && |ContentProjection| <= |text| && text[|text| - |ContentProjection|..] == ContentProjection
      && |text| == |PostSelector| + |cat| + |search| + |ContentProjection|
  {
    ClauseStarts();
    Shape(PostSelector, CategoryClause, SearchClause, ContentProjection, cat, search);
  }

  /** `QueryTextShape` for any selector, clauses and projection whose second
      (category against the others) and first (search against the projection)
      characters differ. */
  lemma Shape(sel: string, cc: string, sc: string, proj: string, cat: string, search: string)
    requires |cc| >= 2 && |sc| >= 2 && |proj| >= 2
    requires cc[1] != sc[1] && cc[1] != proj[1] && sc[0] != proj[0]
    requires cat == "" || cat == cc
    requires search == "" || search == sc
    ensures var text := sel + cat + search + proj;
      && sel <= text
      && (Text.OccursAt(text, cc, |sel|) <==> cat != "")
      && (Text.OccursAt(text, sc, |sel| + |cat|) <==> search != "")
      && text[|text| - |proj|..] == proj
      && |text| == |sel| + |cat| + |search| + |proj|
  {
    var text := sel + cat + search + proj;
    CategoryPlace(sel, cc, sc, proj, cat, search);
    SearchPlace(sel + cat, sc, proj, search);
    assert text == (sel + cat) + search + proj;
    assert text == (sel + cat + search) + proj;
  }

  /** The category clause stands right after the selector exactly when it was added. */
  lemma CategoryPlace(sel: string, cc: string, sc: string, proj: string, cat: string, search: string)
    requires |cc| >= 2 && |sc| >= 2 && |proj| >= 2
    requires cc[1] != sc[1] && cc[1] != proj[1]
    requires cat == "" || cat == cc
    requires search == "" || search == sc
    ensures Text.OccursAt(sel + cat + search + proj, cc, |sel|) <==> cat != ""
  {
    var rest := search + proj;
    assert sel + cat + search + proj == sel + cat + rest;
    if cat == "" {
      assert rest[1] == sc[1] || rest[1] == proj[1];
      assert sel + cat + rest == sel + rest;
      NotAt(sel, rest, cc, 1);
    } else {
      At(sel, cc, rest);
    }
  }

  /** The search clause stands right after `head` exactly when it was added. */
  lemma SearchPlace(head: string, sc: string, proj: string, search: string)
    requires |sc| >= 2 && |proj| >= 2 && sc[0] != proj[0]
    requires search == "" || search == sc
    ensures Text.OccursAt(head + search + proj, sc, |head|) <==> search != ""
  {
    if search == "" {
      assert head + search + proj == head + proj;
      NotAt(head, proj, sc, 0);
    } else {
      At(head, sc, proj);
    }
  }

  /** The characters that tell the clauses and the projection apart. */
  lemma ClauseStarts()
    ensures CategoryClause[0] == '[' && CategoryClause[1] == 'c'
    ensures SearchClause[0] == '[' && SearchClause[1] == 't'
    ensures ContentProjection[0] == '{' && ContentProjection[1] == '\n'
  {
  }

  lemma At(prefix: string, clause: string, rest: string)
    ensures Text.OccursAt(prefix + clause + rest, clause, |prefix|)
  {
    assert (prefix + clause + rest)[|prefix|..|prefix| + |clause|] == clause;
  }

  lemma NotAt(prefix: string, rest: string, clause: string, j: nat)
    requires j < |clause| && j < |rest| && rest[j] != clause[j]
    ensures !Text.OccursAt(prefix + rest, clause, |prefix|)
  {
    if |prefix| + |clause| <= |prefix + rest| {
      assert (prefix + rest)[|prefix|..|prefix| + |clause|][j] == rest[j];
    }
  }

  /** What `fetchContentItems` resolves to (`Ok`) or the `Error` it throws (`Err`). */
  function ContentItemsOutcome(cfg: Config, f: ContentFilter, store: GroqQuery -> Response<seq<ContentItem>>)
    : (r: Result<seq<ContentItem>>)
    ensures !IsConfigured(cfg) ==> r == Ok([])
    ensures IsConfigured(cfg) ==> (r.Ok? <==> store(ContentQuery(f)).Returned?)
    ensures r.Ok? && IsConfigured(cfg) ==> r.value == store(ContentQuery(f)).value
    ensures r.Err? ==> ContentItemsFailure <= r.error
  {
    if !IsConfigured(cfg) then Ok([])
    else match store(ContentQuery(f))
      case Returned(items) => Ok(items)
      case Threw(detail) => Err(ContentItemsFailure + detail)
  }

  /** `fetchContentItems`: builds the query by appending clause by clause and
      assigning into the parameter record, then asks the store. */
  method FetchContentItems(cfg: Config, f: ContentFilter, store: GroqQuery -> Response<seq<ContentItem>>)
      returns (r: Result<seq<ContentItem>>)
    ensures r == ContentItemsOutcome(cfg, f, store)
  {
    if !IsConfigured(cfg) {
      return Ok([]);
    }
    ghost var cat := if CategoryActive(f) then CategoryClause else "";
    ghost var search := if SearchActive(f) then SearchClause else "";
    ghost var catParams: map<string, string> := if CategoryActive(f) then map["category" := f.category.value] else map[];
    ghost var searchParams: map<string, string> := if SearchActive(f) then map["searchTerm" := f.searchTerm.value] else map[];
    var query := PostSelector;
    var params: map<string, string> := map[];
    if CategoryActive(f) {
      query := query + CategoryClause;
      params := params["category" := f.category.value];
    }
    assert query == PostSelector + cat && params == catParams;
    if SearchActive(f) {
      query := query + SearchClause;
      params := params["searchTerm" := f.searchTerm.value];
    }
    assert params == catParams + searchParams;
    assert query == PostSelector + cat + search;
    query := query + ContentProjection;
    assert GroqQuery(query, params) == ContentQuery(f);
    var answer := store(GroqQuery(query, params));
    match answer {
      case Returned(items) => r := Ok(items);
      case Threw(detail) => r := Err(ContentItemsFailure + detail);
    }
  }

  // ---------------------------------------------------------------------------
  // fetchCategories

  const CategoriesQuery: GroqQuery := GroqQuery("array::unique(*[_type == \"post\" && defined(category)].category)", map[])
  const FallbackCategories: seq<string> := ["all", "Technology", "Science"]
  const CategoriesFailure: string := "Sanity API request for categories failed. "

  /** `fetchCategories`: the fallback list when unconfigured; otherwise `'all'`
      followed by what the store returned (nothing when it returned `null`). */
  function FetchCategories(cfg: Config, store: GroqQuery -> Response<Option<seq<string>>>): (r: Result<seq<string>>)
    ensures !IsConfigured(cfg) ==> r == Ok(FallbackCategories)
    ensures r.Ok? ==> |r.value| >= 1 && r.value[0] == "all"
    ensures IsConfigured(cfg) ==> (r.Err? <==> store(CategoriesQuery).Threw?)
    ensures IsConfigured(cfg) && store(CategoriesQuery) == Returned(None) ==> r == Ok(["all"])
    ensures IsConfigured(cfg) && store(CategoriesQuery).Returned? && store(CategoriesQuery).value.Some? ==>
      r.Ok? && r.value[1..] == store(CategoriesQuery).value.value
    ensures r.Err? ==> CategoriesFailure <= r.error
  {
    if !IsConfigured(cfg) then Ok(FallbackCategories)
    else match store(CategoriesQuery)
      case Returned(cats) =>
        var fetched := if cats.Some? then cats.value else [];
        assert (["all"] + fetched)[1..] == fetched;
        assert ["all"] + [] == ["all"];
        Ok(["all"] + fetched)
      case Threw(detail) => Err(CategoriesFailure + detail)
  }

  // ---------------------------------------------------------------------------
  // fetchProductBySlug

  const ProductFields: string :=
    "\n  _id,\n  _type,\n  _createdAt,\n  _updatedAt,\n  name,\n  slug,\n  description,\n  mainImage, // Fetches the image asset reference\n  imageHint,\n  details,\n  price,\n  category\n"

  /** The query for the product whose slug is `slug`; the slug travels as a parameter. */
  function ProductQuery(slug: string): (q: GroqQuery)
    ensures q.params == map["slug" := slug]
  {
    GroqQuery("*[_type == \"product\" && slug.current == $slug][0]{" + ProductFields + "}", map["slug" := slug])
  }

  /** The slug is bound as a parameter and never spliced into the query text: the
      text is the same for every slug. */
  lemma ProductQueryBindsSlug(slug: string, other: string)
    ensures ProductQuery(slug).params == map["slug" := slug]
    ensures ProductQuery(slug).text == ProductQuery(other).text
  {
  }

  /** The message of the `Error` thrown when the product lookup fails. */
  function ProductFailure(slug: string, detail: string): (message: string)
    ensures "Sanity API request for product \"" <= message
    ensures |detail| <= |message| && message[|message| - |detail|..] == detail
  {
    "Sanity API request for product \"" + slug + "\" failed. " + detail
  }

  /** `fetchProductBySlug`: `null` (here `None`) when unconfigured, otherwise what
      the store returned for the slug, or the wrapped error. */
  function FetchProductBySlug(cfg: Config, slug: string, store: GroqQuery -> Response<Option<Product>>)
    : (r: Result<Option<Product>>)
    ensures !IsConfigured(cfg) ==> r == Ok(None)
    ensures IsConfigured(cfg) ==> (r.Ok? <==> store(ProductQuery(slug)).Returned?)
    ensures IsConfigured(cfg) && r.Ok? ==> r.value == store(ProductQuery(slug)).value
    ensures r.Err? ==> "Sanity API request for product \"" <= r.error
  {
    if !IsConfigured(cfg) then Ok(None)
    else match store(ProductQuery(slug))
      case Returned(product) => Ok(product)
      case Threw(detail) => Err(ProductFailure(slug, detail))
  }

  // ---------------------------------------------------------------------------
  // subscribeToContentUpdates

  /** The `transition` of a listener event. */
  datatype Transition = Appear | Update | Disappear

  /** A listener event: the document after the mutation (if any) and the transition. */
  datatype ListenUpdate = ListenUpdate(result: Option<ContentItem>, transition: Transition)

  /** What `subscribeToContentUpdates` hands back: an inert unsubscribe, or one that
      ends a live listener. */
  datatype Listener = NoOpListener | LiveListener

  /** `subscribeToContentUpdates`: a live listener only in a browser, with the client
      configured, and when `listen` did not throw. */
  function SubscribeToContentUpdates(cfg: Config, windowDefined: bool, listenThrows: bool): (l: Listener)
    ensures l.LiveListener? <==> windowDefined && IsConfigured(cfg) && !listenThrows
  {
    if !windowDefined || !IsConfigured(cfg) then NoOpListener
    else if listenThrows then NoOpListener
    else LiveListener
  }

  /** The item the callback receives for an event, if any: only a live listener
      calls back, and only for an event with a document that appeared or changed. */
  function Deliver(l: Listener, u: ListenUpdate): (r: Option<ContentItem>)
    ensures r.Some? <==> l.LiveListener? && u.result.Some? && (u.transition == Appear || u.transition == Update)
    ensures r.Some? ==> r == u.result
  {
    if l.LiveListener? && u.result.Some? && (u.transition == Appear || u.transition == Update) then u.result
    else None
  }

  /** An unconfigured client sends no query: every read gives its default whatever
      the store would have answered, and subscribing gives the inert listener. */
  lemma NotConfiguredAsksNothing(cfg: Config, f: ContentFilter, slug: string,
                                 items: GroqQuery -> Response<seq<ContentItem>>,
                                 items': GroqQuery -> Response<seq<ContentItem>>,
                                 cats: GroqQuery -> Response<Option<seq<string>>>,
                                 cats': GroqQuery -> Response<Option<seq<string>>>,
                                 products: GroqQuery -> Response<Option<Product>>,
                                 products': GroqQuery -> Response<Option<Product>>,
                                 windowDefined: bool, listenThrows: bool)
    requires !IsConfigured(cfg)
    ensures ContentItemsOutcome(cfg, f, items) == ContentItemsOutcome(cfg, f, items') == Ok([])
    ensures FetchCategories(cfg, cats) == FetchCategories(cfg, cats') == Ok(FallbackCategories)
    ensures FetchProductBySlug(cfg, slug, products) == FetchProductBySlug(cfg, slug, products') == Ok(None)
    ensures SubscribeToContentUpdates(cfg, windowDefined, listenThrows) == NoOpListener
  {
  }

  // ---------------------------------------------------------------------------
  // createProductEnquiry

  /** The `{ success, message }` shape every enquiry submission resolves to. */
  datatype EnquiryResult = EnquiryResult(success: bool, message: string)

  const SimulatedTag: string := "(simulated)"
  // As for the query clauses, the messages are written in pieces the verifier can read.
  const SimulatedMessage: string :=
    "Enquiry " + SimulatedTag + " submitted! " + "Real submission requires SANITY_API_TOKEN."
  const SavedMessage: string :=
    "Enquiry submitted successfully to Sanity! " + "We will get back to you soon."
  const SaveFailedMessage: string :=
    "Server error: " + "Could not submit enquiry to Sanity."

  /** `createProductEnquiry`: never throws. Without a write client it reports a
      simulated success; otherwise success exactly when the write went through. The
      simulated tag marks exactly the simulated outcome. */
  function CreateProductEnquiry(cfg: Config, write: Response<()>): (r: EnquiryResult)
    ensures r.success <==> !cfg.hasWriteClient || write.Returned?
    ensures Text.Contains(r.message, SimulatedTag) <==> !cfg.hasWriteClient
    ensures r.message != ""
  {
    if !cfg.hasWriteClient then
      SimulatedIsTagged();
      EnquiryResult(true, SimulatedMessage)
    else match write
      case Returned(_) =>
        SavedIsUntagged();
        EnquiryResult(true, SavedMessage)
      case Threw(_) =>
        SaveFailedIsUntagged();
        EnquiryResult(false, SaveFailedMessage)
  }

  lemma SimulatedIsTagged()
    ensures Text.Contains(SimulatedMessage, SimulatedTag) && SimulatedMessage != ""
  {
    assert SimulatedMessage[8..8 + |SimulatedTag|] == SimulatedTag;
    assert Text.OccursAt(SimulatedMessage, SimulatedTag, 8);
    Text.ContainsIff(SimulatedMessage, SimulatedTag);
  }

  lemma SavedIsUntagged()
    ensures !Text.Contains(SavedMessage, SimulatedTag) && SavedMessage != ""
  {
    NoOpenParen(SavedMessage);
  }

  lemma SaveFailedIsUntagged()
    ensures !Text.Contains(SaveFailedMessage, SimulatedTag) && SaveFailedMessage != ""
  {
    NoOpenParen(SaveFailedMessage);
  }

  /** A message without `(` does not carry the simulated tag. */
  lemma NoOpenParen(m: string)
    requires '(' !in m
    ensures !Text.Contains(m, SimulatedTag)
  {
    Text.ContainsIff(m, SimulatedTag);
    assert SimulatedTag[0] == '(';
    forall i: nat ensures !Text.OccursAt(m, SimulatedTag, i) {
      if i + |SimulatedTag| <= |m| {
        assert m[i..i + |SimulatedTag|][0] == m[i];
        assert m[i] in m;
      }
    }
  }
}

# pdp-v2 content browser: a Dafny model

This project models the core of pdp-v2. pdp-v2 is a Next.js site that lists posts
from a Sanity content lake and keeps the list live. It also has a product enquiry
form, checked by a client-side schema and stored under a studio document type.
The model covers five parts:

- **The home page** (`HomePage`): the state fields, the steps that update them and
  the render classification. The steps are the content load, the initial load,
  the filter and subscription effects, the filter controls and the live-item
  handler. The page is a class, and each method is one completed asynchronous step.
- **The live-item updater** (`ContentMerge`): an item whose id is already listed
  leaves the list as it was. An item that fails the category and search filters
  does too. Any other item is prepended and the list is stably re-sorted by
  creation time, newest first.
- **The Sanity client wrapper** (`SanityClient`): the "not configured" check and
  the query and parameter builder of the content fetch. It also covers the
  category fetch with its `all` sentinel, the product fetch, the error-message
  prefixes, the live-listener transition filter and the enquiry-write outcome
  mapping. The Sanity client itself is a parameter: each call either returns a
  value or throws.
- **The enquiry validators** (`EnquirySchema`, `StudioEnquiry`): the zod schema of
  the form and the studio's `productEnquiry` rules, stated side by side. The
  studio part also covers the mobile `custom` validator, the status list and the
  list preview.
- **The enquiry form** (`EnquiryForm`): default values, the validation gate,
  and the `isSubmitting` flag, reset and toasts of the submit handler.

Shared pieces:

- `Wrappers`: `Option`, `Result`, JavaScript string truthiness and the `||` fallback.
- `Text`: ASCII lower-casing and substring search.
- `SanityTypes`: the records.

Behaviour worth knowing, read from the code:

- `loadContent` catches its own errors. During the initial load, a failed content
  fetch therefore leaves `sanityConnectionFailed` false. Only a failed category
  fetch marks the connection as failed (`HomePage.HomePage.LoadInitialData`).
- On mount, React starts the filter effect and the subscription effect in the same
  commit as the initial load, while the connection flag is still false. So a
  second unfiltered content load and a listener are under way before the category
  fetch settles. When that fetch fails, the flag change re-runs both effects: the
  filter effect then does nothing and the listener is released and not replaced.
  `HomePage.Mount` runs the effects' first runs after the initial load instead
  (see "## Left out").
- The client schema requires a mobile number of at least 10 characters, even
  though the form labels the field "(Optional)". The studio accepts a missing or
  empty number (`StudioEnquiry.StudioRulesAreLooser`).
- The client schema's "less than 500 characters" message belongs to `max(500)`,
  which accepts 500 (`EnquirySchema.ClientBoundaryCases`).

## Model

| member | source | states |
|---|---|---|
| Text.LowerIdempotent | src/app/page.tsx:83 | lower-casing an already lower-cased string changes nothing, so comparing two lower-cased values is stable |
| Text.ContainsIff | src/app/page.tsx:85-86 | `includes` is true exactly when the term occurs at some offset of the text |
| ContentMerge.MatchesFiltersIgnoresCase | src/app/page.tsx:82-87 | the filter gives the same answer for a selection and search term as for their lower-cased forms, for every selection that does not lower-case to `all`. Those are excluded because the sentinel test compares the raw selection with `'all'`, case-sensitively: "All" is a real category for the filter, while its lower-cased form is the sentinel |
| ContentMerge.CategoryMatches | src/app/page.tsx:83 | the category test: the `all` sentinel, or a present non-empty category equal to the selection ignoring case |
| ContentMerge.SearchMatches | src/app/page.tsx:84-86 | the search test: an empty term, or the lower-cased term inside the lower-cased title or a present non-empty excerpt |
| ContentMerge.MatchesFilters | src/app/page.tsx:82-87 | the filter is the conjunction of the category test and the search test |
| ContentMerge.SearchMatchesIff | src/app/page.tsx:84-86 | the search test holds exactly for an empty term or an occurrence of the lower-cased term at some offset of the lower-cased title or of a present, non-empty excerpt, which is what `includes` means |
| ContentMerge.HasIdPermutation | src/app/page.tsx:78 | whether an id is listed does not depend on the order of the list |
| ContentMerge.Insert | src/app/page.tsx:96 | one insertion step keeps every element and adds exactly the new one |
| ContentMerge.InsertSorted | src/app/page.tsx:96 | inserting into a newest-first list keeps it newest-first |
| ContentMerge.InsertTies | src/app/page.tsx:96 | inserting keeps the relative order of items with the same creation time, as prepending would |
| ContentMerge.SortByCreatedDesc | src/app/page.tsx:96 | the comparator sort yields a newest-first permutation of its input |
| ContentMerge.SortIsStable | src/app/page.tsx:96 | the sort is stable: items with equal creation times keep their input order |
| ContentMerge.SortTies | src/app/page.tsx:96 | per creation time, the sorted list lists the same items in the same order as the input |
| ContentMerge.SortKeepsSorted | src/app/page.tsx:96 | sorting an already newest-first list returns it unchanged |
| ContentMerge.TieBound | src/app/page.tsx:96 | in a newest-first list, any creation time that occurs is at most that of the head |
| ContentMerge.SortedWithSameTiesEqual | src/app/page.tsx:96 | two newest-first lists with the same per-time order are equal |
| ContentMerge.StableSortIsUnique | src/app/page.tsx:96 | any newest-first arrangement that keeps the per-time order is exactly the sort's result, so the result is fully determined |
| ContentMerge.HasIdCons | src/app/page.tsx:78 | an id is in a prepended list exactly when it is the new head's or was already listed |
| ContentMerge.UniqueIdsCons | src/app/page.tsx:78-80 | a prepended list has distinct ids exactly when the head's id is new and the tail's ids are distinct |
| ContentMerge.InsertKeepsIdsUnique | src/app/page.tsx:96 | inserting an item with a new id keeps ids distinct |
| ContentMerge.SortKeepsIdsUnique | src/app/page.tsx:96 | sorting keeps ids distinct |
| ContentMerge.InsertPosition | src/app/page.tsx:96 | one insertion step keeps the elements before the insertion point, all strictly newer than the item, and shifts the rest by one. The element it lands before is not newer |
| ContentMerge.MergeNewItem | src/app/page.tsx:77-99 | a listed id or a filter miss returns the previous list and no toast. Otherwise a toast is due, and the list is the previous one plus the item, newest first, with per-time order as in `[item, ...prev]` |
| ContentMerge.MergeKeepsIdsUnique | src/app/page.tsx:78-96 | the updater never creates a duplicate id |
| ContentMerge.RedeliveryIsIdempotent | src/app/page.tsx:78-80 | delivering the same item a second time under the same filters returns the list the first delivery produced and raises no toast |
| ContentMerge.AdmittedItemPlacement | src/app/page.tsx:89-96 | an admitted item appears exactly once, after every strictly newer item and before every other, with ties placing it first |
| ContentMerge.PrependedPlacement | src/app/page.tsx:96 | the same placement, stated for sorting the prepended list |
| ContentMerge.InsertedPlacement | src/app/page.tsx:96 | the same placement for one insertion into a newest-first list without the item's id |
| SanityClient.ContentQuery | src/lib/sanityClient.ts:41-51 | the parameters hold `category` exactly when a non-empty category other than `all` is set, `searchTerm` exactly when a non-empty term is set, each with its filter's value, and nothing else |
| SanityClient.ContentQueryShape | src/lib/sanityClient.ts:40-53 | the query text starts with the `post` selector, has the category clause right after it exactly when a category other than `all` is set, then the search clause exactly when a non-empty term is set, and ends with the projection and ordering. Its length is the sum of exactly those pieces, so nothing else is in it |
| SanityClient.IsConfigured | src/lib/sanityClient.ts:35 | the client counts as configured exactly when the project id is non-empty and not `mockProjectId` |
| SanityClient.NotConfiguredAsksNothing | src/lib/sanityClient.ts:34-97 | when not configured, the content, category and product reads give `[]`, the fallback categories and no product whatever the store would answer, so no query is issued. Subscribing gives the no-op listener |
| SanityClient.ContentItemsOutcome | src/lib/sanityClient.ts:34-61 | unconfigured gives an empty list. Configured gives the fetched list, or an error that starts with "Sanity API request for content items failed. " when the fetch throws |
| SanityClient.FetchContentItems | src/lib/sanityClient.ts:34-61 | the imperative query and parameter build yields exactly `ContentItemsOutcome` |
| SanityClient.FetchCategories | src/lib/sanityClient.ts:63-76 | unconfigured gives `all`, `Technology`, `Science`. Configured gives `all` followed by the fetched list, only `all` for a null fetch, or a prefixed error when the fetch throws. Every success starts with `all` |
| SanityClient.ProductQueryBindsSlug | src/lib/sanityClient.ts:84-85 | the product query's parameters are exactly the slug, and its text is the same for every slug, so the slug is never spliced into the query |
| SanityClient.ProductFailure | src/lib/sanityClient.ts:89 | the product error message starts with the product prefix and ends with the underlying error's message |
| SanityClient.FetchProductBySlug | src/lib/sanityClient.ts:78-91 | unconfigured gives no product. Configured gives the fetched value, or an error starting with the product prefix when the fetch throws |
| SanityClient.SubscribeToContentUpdates | src/lib/sanityClient.ts:93-118 | a live listener results exactly when there is a window, the client is configured and `listen` does not throw. Otherwise it is a no-op |
| SanityClient.Deliver | src/lib/sanityClient.ts:102-108 | the callback receives an item exactly when the listener is live, the update has a result and the transition is `appear` or `update`, and it receives that result |
| SanityClient.CreateProductEnquiry | src/lib/sanityClient.ts:121-138 | never fails: success exactly when there is no write client or the create returns. The message is non-empty and says "(simulated)" exactly when there is no write client |
| SanityClient.SimulatedIsTagged | src/lib/sanityClient.ts:125 | the simulated-success message carries the "(simulated)" tag |
| SanityClient.SavedIsUntagged | src/lib/sanityClient.ts:133 | the real success message does not carry the tag |
| SanityClient.SaveFailedIsUntagged | src/lib/sanityClient.ts:136 | the failure message does not carry the tag |
| SanityClient.NoOpenParen | src/lib/sanityClient.ts:133-136 | a message without `(` cannot carry the simulated tag, which is how the two real messages are told apart |
| HomePage.InitialDataError | src/app/page.tsx:54-55 | the page error after a failed initial load starts with the client's error message and is never empty |
| HomePage.NewContentToast | src/app/page.tsx:90-95 | the new-content toast is not destructive and its description quotes the item's title |
| HomePage.Render | src/app/page.tsx:145-201 | the full-page error shows exactly when there is an error, no items and no load in flight. Otherwise the listing shows: the first-load spinner exactly while loading with no items, the inline error exactly when there is an error, "No Content Found" exactly when nothing is loading and there is no error, no item and no connection failure, and "Connection Failed" exactly when the connection failed with no items and nothing loading. Exactly one main state shows |
| HomePage.HomePage.constructor | src/app/page.tsx:14-20 | the initial state: empty lists, category `all`, empty term, loading, no error, connection not failed |
| HomePage.HomePage.LoadContent | src/app/page.tsx:23-41 | a successful fetch replaces the list and clears the error. A failure keeps the list, records the client's error message and adds the content toast. Loading ends either way, and no other field changes |
| HomePage.HomePage.LoadInitialData | src/app/page.tsx:43-67 | the connection is marked failed exactly when the category fetch fails, with the hinted error and the page-data toast. Otherwise the categories are stored and the unfiltered content load follows |
| HomePage.HomePage.FilterEffect | src/app/page.tsx:69-73 | with a failed connection nothing changes. Otherwise the content load runs with the current filters |
| HomePage.HomePage.SubscriptionEffect | src/app/page.tsx:102-118 | a failed connection leaves no listener. Otherwise the listener is the one the client's subscribe returns |
| HomePage.HomePage.SelectCategory | src/app/page.tsx:69-73 | the same category changes nothing. With a failed connection, a new category is stored, the list, error, loading flag and toasts stay, and no listener remains. Otherwise the content load runs with the new category: a success replaces the list and clears the error, a failure keeps the list, records the error and adds the content toast. Loading ends either way, and the listener is the one the client's subscribe returns |
| HomePage.HomePage.ChangeSearchTerm | src/app/page.tsx:69-73 | the same term changes nothing. With a failed connection, a new term is stored, the list, error, loading flag and toasts stay, and no listener remains. Otherwise the content load runs with the new term: a success replaces the list and clears the error, a failure keeps the list, records the error and adds the content toast. Loading ends either way, and the listener is the one the client's subscribe returns |
| HomePage.HomePage.HandleNewItem | src/app/page.tsx:75-100 | the list becomes the updater's result, and the new-content toast is added exactly when the updater admits the item |
| HomePage.HomePage.OnListenerEvent | src/app/page.tsx:113 | an event changes the page only through a live listener that delivers it, and then exactly as `HandleNewItem` |
| HomePage.Mount | src/app/page.tsx:43-118 | with the first effect runs taken after the initial load, the connection is failed exactly when the category fetch failed. Then no listener exists, the list is empty and the page shows the hinted error alone. Otherwise the listener is the one the client's subscribe returns |
| EnquirySchema.MobilePatternIff | src/app/schemas.ts:8 | the mobile pattern holds exactly when the string is an optional `+` followed only by digits, white space, `-`, `(` and `)` |
| EnquirySchema.ProductNameValid | src/app/schemas.ts:5 | every product name is accepted |
| EnquirySchema.NameValid | src/app/schemas.ts:6 | a name is accepted exactly when it has at least 2 characters |
| EnquirySchema.MobileValid | src/app/schemas.ts:8 | a mobile is accepted exactly when it has at least 10 characters and matches the pattern |
| EnquirySchema.EnquiryValid | src/app/schemas.ts:9 | an enquiry is accepted exactly when it has 10 to 500 characters |
| EnquirySchema.ValidPayload | src/app/schemas.ts:4-10 | a payload is accepted exactly when all five field rules hold, the email rule being the given check |
| EnquirySchema.NameIssues | src/app/schemas.ts:6 | the name has an issue exactly when it is shorter than 2 |
| EnquirySchema.EmailIssues | src/app/schemas.ts:7 | the email has an issue exactly when the email check rejects it |
| EnquirySchema.MobileIssues | src/app/schemas.ts:8 | the mobile has an issue exactly when it is shorter than 10 or fails the pattern |
| EnquirySchema.EnquiryIssues | src/app/schemas.ts:9 | the enquiry has an issue exactly when its length is outside 10 to 500 |
| EnquirySchema.Validate | src/app/schemas.ts:4-10 | no issues exactly for a valid payload (all five field rules). Each field has an issue exactly when its rule fails, and the product name never has one |
| EnquirySchema.ClientBoundaryCases | src/app/schemas.ts:8-9 | an empty mobile is rejected, and enquiries of length 10 and 500 are accepted |
| StudioEnquiry.ValidateMobile | studio-pdp-v2/schemaTypes/productEnquiry.ts:36-44 | accepts exactly an absent or empty number or one the client also accepts. A bad character gives the format message before any length check, and a short well-formed number gives the length message |
| StudioEnquiry.CustomerNameValid | studio-pdp-v2/schemaTypes/productEnquiry.ts:22 | the customer name is required and has at least 2 characters |
| StudioEnquiry.StudioEmailValid | studio-pdp-v2/schemaTypes/productEnquiry.ts:28 | the email is required and passes the email check |
| StudioEnquiry.MessageValid | studio-pdp-v2/schemaTypes/productEnquiry.ts:52 | the message is required and has 10 to 5000 characters |
| StudioEnquiry.InitialStatus | studio-pdp-v2/schemaTypes/productEnquiry.ts:71-79 | the initial status is the value of the listed option titled "New" |
| StudioEnquiry.PreviewTitle | studio-pdp-v2/schemaTypes/productEnquiry.ts:94 | the title is the product name, or "Enquiry" when it is falsy, then " from " and the customer, or "Unknown" when that is falsy |
| StudioEnquiry.PreviewSubtitle | studio-pdp-v2/schemaTypes/productEnquiry.ts:91-95 | the subtitle starts with the interpolated email and ends with the status, or "New" when it is falsy |
| StudioEnquiry.ClientRulesImplyStudioRules | src/app/schemas.ts:4-10 | every payload the client accepts passes the studio's customer name, email, mobile and message rules |
| StudioEnquiry.StudioRulesAreLooser | studio-pdp-v2/schemaTypes/productEnquiry.ts:36-52 | the studio accepts a missing or empty mobile, which the client rejects, and some message the client rejects as too long |
| EnquiryForm.DefaultValues | src/components/product-enquiry-form.tsx:28-34 | the defaults carry the product name and leave every other field empty, so they never pass the schema |
| EnquiryForm.ToastFor | src/components/product-enquiry-form.tsx:41-59 | only a successful result gives a non-destructive toast, with the result's message. A failed result shows its message, or "An unexpected error occurred." when that is empty. A throw shows the client error |
| EnquiryForm.ProductEnquiryForm.SubmitDisabled | src/components/product-enquiry-form.tsx:124 | the submit button is disabled exactly while `isSubmitting` is set |
| EnquiryForm.ProductEnquiryForm.constructor | src/components/product-enquiry-form.tsx:24-35 | the form starts from the defaults, not submitting, with nothing sent |
| EnquiryForm.ProductEnquiryForm.Edit | src/components/product-enquiry-form.tsx:68-123 | editing changes the four visible fields and never the product name |
| EnquiryForm.ProductEnquiryForm.StartSubmit | src/components/product-enquiry-form.tsx:37-40 | requires the submit button to be enabled, that is no submission in flight. The flag is raised, which disables the button, and the valid payload is handed to the action |
| EnquiryForm.ProductEnquiryForm.SettleSubmit | src/components/product-enquiry-form.tsx:41-62 | requires a submission in flight. Exactly one toast is added. Values reset to the defaults only on a successful result, and the flag is lowered on every path |
| EnquiryForm.ProductEnquiryForm.HandleSubmit | src/components/product-enquiry-form.tsx:67 | requires the submit button to be enabled. Invalid values change nothing and reach no action. Valid values are sent, then settled as above. The button is enabled again afterwards on every path, and every payload ever sent passed the schema |

## Left out

- Markup, styling, the toast component and the style-sheet effect are left out. Toasts are recorded as values in a list, and the `setTimeout` deferral of the new-content toast is not modelled.
- Asynchronous interleaving is left out. Each load is one atomic step, so overlapping loads that complete out of order are not modelled, and the code has no guard against them.
- HomePage.Mount: runs the initial load to its end and only then the first runs of the filter and subscription effects. In the browser both effects start in the same commit as the initial load, before the category fetch settles. After a failed category fetch, the filter effect's content load still lands. It cleared the error when it started, before the category fetch failed, so a success only sets the list: a non-empty success fills it and leaves the hinted error inline. A failure that settles later replaces the hinted error with the content error. The failure branch of `HomePage.Mount` (empty list, the hinted error alone, no listener) therefore holds in the browser only when that content load returns no items, or fails and settles first. On success the model's two content loads match the browser's two, in a fixed order.
- Effect cleanup is modelled only as replacing the listener. Unsubscribing is not observable in the model.
- `Text.Lower` lower-cases ASCII letters only. `toLowerCase` also folds non-ASCII letters, so case-insensitive matching of non-ASCII categories and terms is not modelled.
- Lengths are counted in `char`s. JavaScript counts UTF-16 code units, so characters outside the Basic Multilingual Plane count once here and twice there.
- `_createdAt` is an integer creation time. Parsing the date string and the `NaN` of an unparsable date in the comparator are not modelled.
- The Sanity client is a function from query to response. GROQ execution, and the server's prefix `match` (which differs from the page's substring filter), are not modelled. Configuration comes in as a project id and a write-client flag, so `sanityClientConfig.ts` and its environment reading are not part of this model.
- Error detail is an abstract string. Only the fixed prefixes are stated, and the "instanceof Error" fallbacks of the page cannot be reached, because the client always throws an `Error`.
- SanityClient.CreateProductEnquiry: the enquiry `data` spread into the created document and the `submittedAt` timestamp are not modelled. Only the outcome mapping is.
- `submitEnquiryAction` is an abstract outcome: it resolves to a `{success, message}` result or throws. Its stub body, which sleeps and always succeeds, is not modelled.
- The zod email check and the studio's email rule take one predicate as a parameter. What makes a well-formed address is not modelled.
- StudioEnquiry.PreviewSubtitle: `toLocaleDateString` is a parameter, since its output depends on the locale. The subtitle's contract states its start and end, not the date part.
- `studio-pdp-v2` orderings, the read-only and display options of the studio fields, and the studio error messages other than the mobile validator's are not modelled.
- `product.ts`, the product page, `summarize-dialog.tsx` (an external AI call), `content-card.tsx`, `filter-controls.tsx`, the header, the footer and `loading.tsx` are not part of this model. The `disabled` prop passed to the filter controls is not modelled, because the component does not declare it.

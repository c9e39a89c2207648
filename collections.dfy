/**
 * The catalogue page of src/components/Collections.jsx: the category filter over
 * the transformed products, the analytics events the page sends, and the page's
 * own state (selected category, products, loading flag, error message).
 */
module Collections {
  import opened Wrappers
  import opened Strings
  import opened Api
  import opened UserStorage

  /** The two category buttons of the page. */
  const AllCategory := "all"

  const PageName := "COLLECTIONS"
  const LoadFailed := "Failed to load products. Please try again later."

  // ---------------------------------------------------------------- the filter

  /** `products.filter(product => product.category === category)`. */
  function FilterCategory(products: seq<Product>, category: string): (r: seq<Product>)
    ensures |r| <= |products|
    ensures forall p :: p in r <==> p in products && p.category == category
  {
    if products == [] then []
    else (if products[0].category == category then [products[0]] else []) + FilterCategory(products[1..], category)
  }

  /** Filtering works piece by piece, so the products shown keep their catalogue order. */
  lemma {:induction false} FilterCategoryAppend(a: seq<Product>, b: seq<Product>, category: string)
    ensures FilterCategory(a + b, category) == FilterCategory(a, category) + FilterCategory(b, category)
  {
    if a == [] {
      assert a + b == b;
    } else {
      assert (a + b)[1..] == a[1..] + b;
      FilterCategoryAppend(a[1..], b, category);
    }
  }

  /** A list whose every product has the category passes the filter unchanged. */
  lemma {:induction false} FilterKeepsAllMatching(products: seq<Product>, category: string)
    requires forall i :: 0 <= i < |products| ==> products[i].category == category
    ensures FilterCategory(products, category) == products
  {
    if products != [] {
      FilterKeepsAllMatching(products[1..], category);
    }
  }

  /** A list in which no product has the category passes nothing. */
  lemma {:induction false} FilterDropsAllOthers(products: seq<Product>, category: string)
    requires forall i :: 0 <= i < |products| ==> products[i].category != category
    ensures FilterCategory(products, category) == []
  {
    if products != [] {
      FilterDropsAllOthers(products[1..], category);
    }
  }

  /** `filteredProducts`: everything for `'all'`, otherwise the products of the selected category. */
  function ShownProducts(products: seq<Product>, selected: string): (r: seq<Product>)
    ensures selected == AllCategory ==> r == products
    ensures selected != AllCategory ==> forall p :: p in r <==> p in products && p.category == selected
    ensures |r| <= |products|
  {
    if selected == AllCategory then products else FilterCategory(products, selected)
  }

  /** Every catalogue product is a new arrival, so `'new'` shows the whole catalogue. */
  lemma {:induction false} NewArrivalsShowAll(items: seq<RawItem>, now: string)
    ensures ShownProducts(TransformCollections(items, now), NewCategory) == TransformCollections(items, now)
  {
    FilterKeepsAllMatching(TransformCollections(items, now), NewCategory);
  }

  /** Any category other than `'all'` and `'new'` shows nothing of the catalogue. */
  lemma {:induction false} OtherCategoriesShowNone(items: seq<RawItem>, now: string, selected: string)
    requires selected != AllCategory && selected != NewCategory
    ensures ShownProducts(TransformCollections(items, now), selected) == []
  {
    FilterDropsAllOthers(TransformCollections(items, now), selected);
  }

  // ---------------------------------------------------------------- ratings

  /** The grid shows a product's rating block only when its review count is positive. */
  predicate RatingShown(p: Product) {
    p.TotalReviews() > 0
  }

  /**
   * For a catalogue product the rating block depends on the metadata's review count
   * when the backend sent metadata, even when it lists reviews, and on the listed
   * reviews only when it sent none.
   */
  lemma {:induction false} RatingShownOfTransformed(item: RawItem, now: string)
    ensures RatingShown(TransformItem(item, now)) <==>
              if item.reviewsMetaData.Some? then item.reviewsMetaData.value.reviews.GetOr(0) > 0 else |item.reviews| > 0
  {
  }

  // ---------------------------------------------------------------- analytics events

  /** The payload handed to `logEvent`. */
  datatype LogEvent = LogEvent(action: string, elementTag: string, pageName: string, userId: int)

  /** `uid != null ? uid : -1`. */
  function EventUserId(uid: Option<int>): (r: int)
    ensures uid.Some? ==> r == uid.value
    ensures uid.None? ==> r == -1
  {
    uid.GetOr(-1)
  }

  /** The event of a click on a product's image; its tag is the product id in decimal. */
  function ViewEvent(p: Product, uid: Option<int>): (e: LogEvent)
    ensures e.action == "VIEW" && e.pageName == PageName && e.userId == EventUserId(uid)
    ensures IsIntString(e.elementTag) && ParseInt(e.elementTag) == p.id
  {
    IntToStringRoundTrip(p.id);
    LogEvent("VIEW", IntToString(p.id), PageName, EventUserId(uid))
  }

  /** The event of a category click: only the two known categories are logged. */
  function CategoryEvent(categoryId: string, uid: Option<int>): (r: Option<LogEvent>)
    ensures r.Some? <==> categoryId == AllCategory || categoryId == NewCategory
    ensures r.Some? ==> r.value.pageName == PageName && r.value.userId == EventUserId(uid)
    ensures categoryId == AllCategory ==> r.value.action == "ALL_PRODUCTS"
    ensures categoryId == NewCategory ==> r.value.action == "NEW_ARRIVALS"
  {
    if categoryId == AllCategory then Some(LogEvent("ALL_PRODUCTS", "COLLECTIONS_ALL_PRODUCTS", PageName, EventUserId(uid)))
    else if categoryId == NewCategory then Some(LogEvent("NEW_ARRIVALS", "COLLECTIONS_NEW_ARRIVALS", PageName, EventUserId(uid)))
    else None
  }

  /** The event sent once when the page mounts. */
  function VisitEvent(uid: Option<int>): (e: LogEvent)
    ensures e.action == "VISIT" && e.pageName == PageName && e.userId == EventUserId(uid)
  {
    LogEvent("VISIT", "COLLECTIONS_PAGE", PageName, EventUserId(uid))
  }

  /** With a stored session the events carry the user's id; without one they carry -1. */
  lemma {:induction false} EventUserOfStore(store: Store)
    requires store.Valid()
    ensures store.IsUserLoggedIn() ==> EventUserId(store.GetUserId()) == store.GetUserId().value
    ensures !store.IsUserLoggedIn() ==> EventUserId(store.GetUserId()) == -1
  {
  }

  // ---------------------------------------------------------------- the page

  class CollectionsPage {
    var selectedCategory: string
    var products: seq<Product>
    var loading: bool
    var error: Option<string>
    /** The events sent to `logEvent`, oldest first. */
    var logged: seq<LogEvent>

    /** Mounting the page: new arrivals selected, the catalogue loading, one visit event sent. */
    constructor (store: Store)
      requires store.Valid()
      ensures selectedCategory == NewCategory && products == [] && loading && error == None
      ensures logged == [VisitEvent(store.GetUserId())]
    {
      selectedCategory := NewCategory;
      products := [];
      loading := true;
      error := None;
      logged := [VisitEvent(store.GetUserId())];
    }

    /** The products on screen: none while loading or after an error, otherwise the filtered catalogue. */
    function Visible(): (r: seq<Product>)
      reads this
      ensures loading || error.Some? ==> r == []
      ensures !loading && error.None? ==> r == ShownProducts(products, selectedCategory)
      ensures !loading && error.None? && selectedCategory != AllCategory ==>
                forall p :: p in r <==> p in products && p.category == selectedCategory
      ensures !loading && error.None? && selectedCategory == AllCategory ==> r == products
    {
      if loading || error.Some? then [] else ShownProducts(products, selectedCategory)
    }

    /**
     * `loadCollections`: `reply` is what `fetchCollections` returned, or the message
     * of the error it threw. The catalogue is transformed on success; on failure the
     * products already held stay and the error message is shown.
     */
    method LoadCollections(reply: Outcome<seq<RawItem>>, now: string)
      modifies this
      ensures !loading && selectedCategory == old(selectedCategory) && logged == old(logged)
      ensures reply.Returned? ==> products == TransformCollections(reply.value, now) && error == None
      ensures reply.Threw? ==> products == old(products) && error == Some(LoadFailed)
    {
      loading := true;
      error := None;
      match reply {
        case Returned(items) =>
          products := TransformCollections(items, now);
        case Threw(_) =>
          error := Some(LoadFailed);
      }
      loading := false;
    }

    /** `handleCategoryClick`: the category is always selected; only `'all'` and `'new'` are logged. */
    method HandleCategoryClick(categoryId: string, store: Store)
      requires store.Valid()
      modifies this
      ensures selectedCategory == categoryId
      ensures products == old(products) && loading == old(loading) && error == old(error)
      ensures CategoryEvent(categoryId, store.GetUserId()).Some? ==>
                logged == old(logged) + [CategoryEvent(categoryId, store.GetUserId()).value]
      ensures CategoryEvent(categoryId, store.GetUserId()).None? ==> logged == old(logged)
    {
      selectedCategory := categoryId;
      var uid := store.GetUserId();
      var e := CategoryEvent(categoryId, uid);
      if e.Some? {
        logged := logged + [e.value];
      }
    }

    /**
     * `handleProductClick`: logs the view and opens the product page; `viewed` is the
     * product handed to `onViewProduct` when the page was given that callback.
     */
    method HandleProductClick(p: Product, store: Store) returns (viewed: Product)
      requires store.Valid()
      modifies this
      ensures viewed == p
      ensures logged == old(logged) + [ViewEvent(p, store.GetUserId())]
      ensures selectedCategory == old(selectedCategory) && products == old(products)
      ensures loading == old(loading) && error == old(error)
    {
      logged := logged + [ViewEvent(p, store.GetUserId())];
      viewed := p;
    }
  }
}

/**
 * The catalog view of `src/context/ProductContext.js`: the pure
 * `productReducer`, the search filter, the stable sorts, the `'all'` branch
 * of the category filter and the sanitising of loaded categories, and the
 * provider as a class whose commands dispatch to the reducer.
 */
module Catalog {
  import opened Wrappers
  import opened Products
  import opened Seqs
  import Text
  import JsValue
  import Helpers

  datatype CatalogState = CatalogState(
    products: seq<Product>,
    filteredProducts: seq<Product>,
    categories: seq<string>,
    currentProduct: Option<Product>,
    loading: bool,
    error: Option<string>,
    searchQuery: string,
    selectedCategory: string)

  const InitialState := CatalogState([], [], [], None, false, None, "", "all")

  /** The actions of `productReducer`; `None` payloads stand for `null` or
      `undefined`. */
  datatype Action =
    | SetLoading(loading: bool)
    | SetError(message: string)
    | ClearError
    | SetProducts(products: Option<seq<Product>>)
    | SetFilteredProducts(filtered: Option<seq<Product>>)
    | SetCategories(categories: Option<seq<string>>)
    | SetCurrentProduct(current: Option<Product>)
    | SetSearchQuery(query: string)
    | SetSelectedCategory(category: string)
    | Unknown(kind: string)

  /** `productReducer`. */
  function Reduce(s: CatalogState, a: Action): (r: CatalogState)
    ensures a.SetProducts? ==> r.filteredProducts == r.products && !r.loading && r.error.None?
    ensures a.SetLoading? ==> r.loading == a.loading
    ensures a.ClearError? ==> r.error.None?
    ensures a.SetError? ==> r.error == Some(a.message)
    ensures a.SetCurrentProduct? ==> r.currentProduct == a.current
    ensures a.SetFilteredProducts? ==> r.filteredProducts == a.filtered.GetOr([])
    ensures a.SetCategories? ==> r.categories == a.categories.GetOr([])
    ensures a.SetSearchQuery? ==> r.searchQuery == a.query
    ensures a.SetSelectedCategory? ==> r.selectedCategory == a.category
    ensures a.SetError? || a.SetCurrentProduct? ==> !r.loading
    ensures r.searchQuery != s.searchQuery ==> a.SetSearchQuery?
    ensures r.products != s.products ==> a.SetProducts?
  {
    match a
    case SetLoading(b) => s.(loading := b)
    case SetError(m) => s.(error := Some(m), loading := false)
    case ClearError => s.(error := None)
    case SetProducts(ps) => s.(products := ps.GetOr([]), filteredProducts := ps.GetOr([]), loading := false, error := None)
    case SetFilteredProducts(ps) => s.(filteredProducts := ps.GetOr([]))
    case SetCategories(cs) => s.(categories := cs.GetOr([]))
    case SetCurrentProduct(p) => s.(currentProduct := p, loading := false)
    case SetSearchQuery(q) => s.(searchQuery := q)
    case SetSelectedCategory(c) => s.(selectedCategory := c)
    case Unknown(_) => s
  }

  // ----- which fields an action writes -----

  datatype Field = ProductList | FilteredList | CategoryList | Current | LoadingFlag | ErrorText | Query | Selected

  /** The fields each action is documented to write. */
  function Writes(a: Action): set<Field> {
    match a
    case SetLoading(_) => {LoadingFlag}
    case SetError(_) => {ErrorText, LoadingFlag}
    case ClearError => {ErrorText}
    case SetProducts(_) => {ProductList, FilteredList, LoadingFlag, ErrorText}
    case SetFilteredProducts(_) => {FilteredList}
    case SetCategories(_) => {CategoryList}
    case SetCurrentProduct(_) => {Current, LoadingFlag}
    case SetSearchQuery(_) => {Query}
    case SetSelectedCategory(_) => {Selected}
    case Unknown(_) => {}
  }

  predicate SameField(s: CatalogState, t: CatalogState, f: Field) {
    match f
    case ProductList => s.products == t.products
    case FilteredList => s.filteredProducts == t.filteredProducts
    case CategoryList => s.categories == t.categories
    case Current => s.currentProduct == t.currentProduct
    case LoadingFlag => s.loading == t.loading
    case ErrorText => s.error == t.error
    case Query => s.searchQuery == t.searchQuery
    case Selected => s.selectedCategory == t.selectedCategory
  }

  /** Every action leaves the fields it does not write as they were; an
      unknown action changes nothing. */
  lemma ReduceWritesOnly(s: CatalogState, a: Action)
    ensures forall f :: f !in Writes(a) ==> SameField(s, Reduce(s, a), f)
    ensures a.Unknown? ==> Reduce(s, a) == s
  {
  }

  /** SET_PRODUCTS installs the payload (nothing means empty) as both the
      product list and the filtered list, ends loading and clears the error;
      SET_ERROR records the message and ends loading. */
  lemma SetProductsAndError(s: CatalogState, ps: Option<seq<Product>>, m: string)
    ensures var r := Reduce(s, SetProducts(ps));
      r.products == r.filteredProducts == (if ps.Some? then ps.value else []) &&
      !r.loading && r.error.None?
    ensures var r := Reduce(s, SetError(m));
      r.error == Some(m) && !r.loading
  {
  }

  // ----- search -----

  /** The title test: the lower-cased title contains the lower-cased query. */
  predicate TitleMatches(p: Product, query: string) {
    Text.Contains(Text.ToLower(p.title), Text.ToLower(query))
  }

  /** Whether the query filters at all: it must not be blank after `trim`. */
  predicate QueryActive(query: string) {
    query != "" && Text.Trim(query) != ""
  }

  /** Whether the category filters at all: not empty and not `'all'`. */
  predicate CategoryActive(category: string) {
    category != "" && category != "all"
  }

  /** Both tests of `searchProducts` on one product. */
  predicate Matches(p: Product, query: string, category: string) {
    (!QueryActive(query) || TitleMatches(p, query)) && (!CategoryActive(category) || p.category == category)
  }

  function ByTitle(query: string): Product -> bool {
    (p: Product) => TitleMatches(p, query)
  }

  function InCategory(category: string): Product -> bool {
    (p: Product) => p.category == category
  }

  /** The list `searchProducts` computes, filter after filter. */
  function Search(products: seq<Product>, query: string, category: string): (r: seq<Product>)
    ensures |r| <= |products|
    ensures forall p :: p in r ==> p in products && Matches(p, query, category)
    ensures !QueryActive(query) && !CategoryActive(category) ==> r == products
  {
    var byTitle := if QueryActive(query) then Filter(products, ByTitle(query)) else products;
    if CategoryActive(category) then Filter(byTitle, InCategory(category)) else byTitle
  }

  /** The two filters in a row are one pass of the combined test: the result
      is the products that pass both tests, in their original order. */
  lemma SearchIsOnePass(products: seq<Product>, query: string, category: string)
    ensures Search(products, query, category) == Filter(products, (p: Product) => Matches(p, query, category))
    ensures SubsequenceOf(Search(products, query, category), products)
    ensures forall p :: p in Search(products, query, category) <==> p in products && Matches(p, query, category)
  {
    var keep := (p: Product) => Matches(p, query, category);
    var qa, ca := QueryActive(query), CategoryActive(category);
    if qa && ca {
      FilterTwice(products, ByTitle(query), InCategory(category), keep);
    } else if qa {
      FilterSame(products, ByTitle(query), keep);
    } else if ca {
      FilterSame(products, InCategory(category), keep);
    } else {
      FilterKeepsAll(products, keep);
    }
    FilterIsSubsequence(products, keep);
    forall p ensures p in Search(products, query, category) <==> p in products && Matches(p, query, category) {
      FilterMembership(products, keep, p);
    }
  }

  // ----- sort -----

  /** The comparator `(a, b) => key(a) - key(b)` read as "may precede". */
  function KeyOrder(key: Product -> real): (le: (Product, Product) -> bool)
    ensures forall a, b :: le(a, b) == (key(a) <= key(b))
  {
    (a: Product, b: Product) => key(a) <= key(b)
  }

  function Price(p: Product): real { p.price }

  function NegPrice(p: Product): real { -p.price }

  function NegRating(p: Product): real { -OrZero(p.rating) }

  function NegDiscount(p: Product): real { -OrZero(p.discountPercentage) }

  /** The numeric sort key of each numeric criterion; the descending orders
      sort by the negated value. */
  function CriterionKey(criterion: string): Option<Product -> real> {
    if criterion == "price-low" then Some(Price)
    else if criterion == "price-high" then Some(NegPrice)
    else if criterion == "rating" then Some(NegRating)
    else if criterion == "discount" then Some(NegDiscount)
    else None
  }

  /** Code-point lexicographic order on titles, standing in for `localeCompare`. */
  predicate TitleLe(a: string, b: string) {
    a == [] || (b != [] && (a[0] < b[0] || (a[0] == b[0] && TitleLe(a[1..], b[1..]))))
  }

  /** The list `sortProducts` dispatches. */
  function Sorted(ps: seq<Product>, criterion: string): (r: seq<Product>)
    ensures multiset(r) == multiset(ps)
  {
    if criterion == "name" then SortBy(ps, (a: Product, b: Product) => TitleLe(a.title, b.title))
    else
      match CriterionKey(criterion)
      case Some(key) => SortBy(ps, KeyOrder(key))
      case None => ps
  }

  /** Every criterion only reorders: the result is a permutation. An unknown
      criterion (`'default'` among them) keeps the order. */
  lemma SortIsPermutation(ps: seq<Product>, criterion: string)
    ensures multiset(Sorted(ps, criterion)) == multiset(ps)
    ensures criterion != "name" && CriterionKey(criterion).None? ==> Sorted(ps, criterion) == ps
  {
  }

  /** A numeric criterion orders by its key and is stable: the products that
      share a key value keep their relative order. */
  lemma SortOrdersByKey(ps: seq<Product>, criterion: string, k: real)
    requires CriterionKey(criterion).Some?
    ensures var key := CriterionKey(criterion).value;
      SortedByKey(Sorted(ps, criterion), key) &&
      Filter(Sorted(ps, criterion), HasKey(key, k)) == Filter(ps, HasKey(key, k))
  {
    var key := CriterionKey(criterion).value;
    SortByIsSorted(ps, KeyOrder(key), key);
    SortByIsStable(ps, KeyOrder(key), key, k);
  }

  /** The four numeric orders, in the source's terms: price ascending, price,
      rating and discount descending (missing rating or discount as 0). */
  lemma SortOrders(ps: seq<Product>)
    ensures var r := Sorted(ps, "price-low");
      forall i, j :: 0 <= i < j < |r| ==> r[i].price <= r[j].price
    ensures var r := Sorted(ps, "price-high");
      forall i, j :: 0 <= i < j < |r| ==> r[i].price >= r[j].price
    ensures var r := Sorted(ps, "rating");
      forall i, j :: 0 <= i < j < |r| ==> OrZero(r[i].rating) >= OrZero(r[j].rating)
    ensures var r := Sorted(ps, "discount");
      forall i, j :: 0 <= i < j < |r| ==> OrZero(r[i].discountPercentage) >= OrZero(r[j].discountPercentage)
  {
    SortOrdersByKey(ps, "price-low", 0.0);
    SortOrdersByKey(ps, "price-high", 0.0);
    SortOrdersByKey(ps, "rating", 0.0);
    SortOrdersByKey(ps, "discount", 0.0);
    var r := Sorted(ps, "price-high");
    assert forall i, j :: 0 <= i < j < |r| ==> NegPrice(r[i]) <= NegPrice(r[j]);
    r := Sorted(ps, "rating");
    assert forall i, j :: 0 <= i < j < |r| ==> NegRating(r[i]) <= NegRating(r[j]);
    r := Sorted(ps, "discount");
    assert forall i, j :: 0 <= i < j < |r| ==> NegDiscount(r[i]) <= NegDiscount(r[j]);
  }

  /** Sorting an already sorted list changes nothing. */
  lemma SortIsIdempotent(ps: seq<Product>, criterion: string)
    requires CriterionKey(criterion).Some?
    ensures Sorted(Sorted(ps, criterion), criterion) == Sorted(ps, criterion)
  {
    var key := CriterionKey(criterion).value;
    SortByIsIdempotent(ps, KeyOrder(key), key);
  }

  // ----- categories -----

  /** The categories installed when loading fails. */
  const FallbackCategories: seq<string> := [
    "beauty", "fragrances", "furniture", "groceries", "home-decoration",
    "kitchen-accessories", "laptops", "mens-shirts", "mens-shoes",
    "mens-watches", "mobile-accessories", "motorcycle", "skin-care",
    "smartphones", "sports-accessories", "sunglasses", "tablets",
    "tops", "vehicle", "womens-bags", "womens-dresses",
    "womens-jewellery", "womens-shoes", "womens-watches"]

  /** `Array.isArray(data) ? data : data?.categories || []`, then `filter`:
      the elements, or `None` when the chosen value is not an array and
      `filter` throws. */
  function CategoryCandidates(data: JsValue.Value): (r: Option<seq<JsValue.Value>>)
    ensures data.Arr? ==> r == Some(data.items)
    ensures r.None? <==> (!data.Arr? && JsValue.Truthy(JsValue.Member(data, "categories")) &&
                          !JsValue.Member(data, "categories").Arr?)
    ensures !data.Arr? && JsValue.Member(data, "categories").Arr? ==>
      r == Some(JsValue.Member(data, "categories").items)
    ensures !data.Arr? && !JsValue.Truthy(JsValue.Member(data, "categories")) ==> r == Some([])
  {
    var chosen :=
      if data.Arr? then data
      else if JsValue.Truthy(JsValue.Member(data, "categories")) then JsValue.Member(data, "categories")
      else JsValue.Arr([]);
    if chosen.Arr? then Some(chosen.items) else None
  }

  /** The strings among the candidates that are not blank after `trim`, in order. */
  function ValidCategories(items: seq<JsValue.Value>): (r: seq<string>)
    ensures forall c :: c in r <==> JsValue.Str(c) in items && Text.Trim(c) != ""
  {
    if items == [] then []
    else
      var rest := ValidCategories(items[1..]);
      assert forall v :: v in items <==> v == items[0] || v in items[1..];
      if items[0].Str? && Text.Trim(items[0].s) != "" then [items[0].s] + rest else rest
  }

  /** The categories `loadCategories` installs for a fetch result. */
  function LoadedCategories(fetched: Result<JsValue.Value, string>): seq<string> {
    match fetched
    case Err(_) => FallbackCategories
    case Ok(data) =>
      match CategoryCandidates(data)
      case None => FallbackCategories
      case Some(items) => ValidCategories(items)
  }

  lemma FallbackNotBlank()
    ensures forall c :: c in FallbackCategories ==> Text.Trim(c) != ""
  {
    assert forall i :: 0 <= i < |FallbackCategories| ==>
      FallbackCategories[i] != [] && 'a' <= FallbackCategories[i][0] <= 'z';
    forall c | c in FallbackCategories ensures Text.Trim(c) != "" {
      LetterFirstNotBlank(c);
    }
  }

  lemma LetterFirstNotBlank(c: string)
    requires c != [] && 'a' <= c[0] <= 'z'
    ensures Text.Trim(c) != ""
  {
    Text.TrimBlank(c);
    assert !Text.IsWhitespace(c[0]);
  }

  /** Whatever the fetch returns, no installed category is blank; a failure,
      or a payload whose chosen value is not an array, installs the 24
      fallback codes, each of which has a display name. */
  lemma LoadedCategoriesNotBlank(fetched: Result<JsValue.Value, string>)
    ensures forall c :: c in LoadedCategories(fetched) ==> Text.Trim(c) != ""
    ensures fetched.Err? ==> LoadedCategories(fetched) == FallbackCategories
    ensures fetched.Ok? && CategoryCandidates(fetched.value).None? ==> LoadedCategories(fetched) == FallbackCategories
    ensures |FallbackCategories| == 24
    ensures forall c :: c in FallbackCategories ==> c in Helpers.CategoryNames
  {
    FallbackNotBlank();
  }

  /** An array payload of non-blank strings is installed as it is. */
  lemma {:induction false} ValidCategoriesKeepsGoodStrings(cs: seq<string>)
    requires forall i :: 0 <= i < |cs| ==> Text.Trim(cs[i]) != ""
    ensures ValidCategories(seq(|cs|, i requires 0 <= i < |cs| => JsValue.Str(cs[i]))) == cs
  {
    var items := seq(|cs|, i requires 0 <= i < |cs| => JsValue.Str(cs[i]));
    if cs != [] {
      assert items[1..] == seq(|cs[1..]|, i requires 0 <= i < |cs[1..]| => JsValue.Str(cs[1..][i]));
      ValidCategoriesKeepsGoodStrings(cs[1..]);
    }
  }

  // ----- the commands of the provider -----

  /** `searchProducts(query)`: records the query, then filters the products. */
  function AfterSearch(s: CatalogState, query: string): CatalogState {
    Reduce(Reduce(s, SetSearchQuery(query)), SetFilteredProducts(Some(Search(s.products, query, s.selectedCategory))))
  }

  /** `sortProducts(criterion)`: sorts a copy of the filtered list. */
  function AfterSort(s: CatalogState, criterion: string): CatalogState {
    Reduce(s, SetFilteredProducts(Some(Sorted(s.filteredProducts, criterion))))
  }

  /** `filterByCategory(category)`; `fetched` is what fetching the category's
      products gives (`None` when the payload has no `products`). */
  function AfterFilterByCategory(s: CatalogState, category: string, fetched: Result<Option<seq<Product>>, string>): CatalogState {
    var s1 := Reduce(Reduce(s, SetSelectedCategory(category)), SetLoading(true));
    var s2 :=
      if !CategoryActive(category) then Reduce(s1, SetFilteredProducts(Some(s.products)))
      else
        match fetched
        case Ok(ps) => Reduce(s1, SetFilteredProducts(ps))
        case Err(m) => Reduce(s1, SetError(if m != "" then m else "Failed to load category products"));
    Reduce(s2, SetLoading(false))
  }

  /** `loadCategories()`. */
  function AfterLoadCategories(s: CatalogState, fetched: Result<JsValue.Value, string>): CatalogState {
    Reduce(s, SetCategories(Some(LoadedCategories(fetched))))
  }

  /** Searching shows the matching products in order and touches neither the
      product list nor the category. */
  lemma SearchProductsShowsMatches(s: CatalogState, query: string)
    ensures var r := AfterSearch(s, query);
      r.searchQuery == query && r.products == s.products && r.selectedCategory == s.selectedCategory &&
      SubsequenceOf(r.filteredProducts, s.products) &&
      forall p :: p in r.filteredProducts <==> p in s.products && Matches(p, query, s.selectedCategory)
  {
    SearchIsOnePass(s.products, query, s.selectedCategory);
  }

  /** Sorting reorders the filtered list and leaves the product list alone. */
  lemma SortProductsReorders(s: CatalogState, criterion: string)
    ensures var r := AfterSort(s, criterion);
      r.products == s.products && multiset(r.filteredProducts) == multiset(s.filteredProducts)
  {
    SortIsPermutation(s.filteredProducts, criterion);
  }

  /** With an empty category or `'all'`, the filtered list becomes the whole
      product list; loading ends and the error is kept. */
  lemma FilterAllShowsEverything(s: CatalogState, category: string, fetched: Result<Option<seq<Product>>, string>)
    requires category == "" || category == "all"
    ensures var r := AfterFilterByCategory(s, category, fetched);
      r.selectedCategory == category && r.filteredProducts == s.products &&
      r.products == s.products && !r.loading && r.error == s.error
  {
  }

  /** With a real category, the fetched products (or none) are shown; a failed
      fetch keeps the old list and records the message or a default one. */
  lemma FilterFetchedCategory(s: CatalogState, category: string, fetched: Result<Option<seq<Product>>, string>)
    requires CategoryActive(category)
    ensures var r := AfterFilterByCategory(s, category, fetched);
      r.selectedCategory == category && r.products == s.products && !r.loading &&
      (fetched.Ok? ==> r.filteredProducts == fetched.value.GetOr([]) && r.error == s.error) &&
      (fetched.Err? ==> r.filteredProducts == s.filteredProducts && r.error.Some? && r.error.value != "")
  {
  }

  /** The provider's state, changed only through the reducer. */
  class Store {
    var state: CatalogState

    constructor()
      ensures state == InitialState
    {
      state := InitialState;
    }

    method Dispatch(a: Action)
      modifies this
      ensures state == Reduce(old(state), a)
    {
      state := Reduce(state, a);
    }

    /** `searchProducts`: narrows a copy of the products, filter by filter. */
    method SearchProducts(query: string)
      modifies this
      ensures state == AfterSearch(old(state), query)
    {
      Dispatch(SetSearchQuery(query));
      var filtered := state.products;
      if query != "" && Text.Trim(query) != "" {
        filtered := Filter(filtered, ByTitle(query));
      }
      var category := state.selectedCategory;
      if category != "" && category != "all" {
        filtered := Filter(filtered, InCategory(category));
      }
      Dispatch(SetFilteredProducts(Some(filtered)));
    }

    /** `sortProducts`. */
    method SortProducts(criterion: string)
      modifies this
      ensures state == AfterSort(old(state), criterion)
    {
      var sorted := Sorted(state.filteredProducts, criterion);
      Dispatch(SetFilteredProducts(Some(sorted)));
    }

    /** `filterByCategory`, with the fetch result as a parameter. */
    method FilterByCategory(category: string, fetched: Result<Option<seq<Product>>, string>)
      modifies this
      ensures state == AfterFilterByCategory(old(state), category, fetched)
    {
      var products := state.products;
      Dispatch(SetSelectedCategory(category));
      Dispatch(SetLoading(true));
      if category == "" || category == "all" {
        Dispatch(SetFilteredProducts(Some(products)));
      } else {
        match fetched
        case Ok(ps) =>
          Dispatch(SetFilteredProducts(ps));
        case Err(m) =>
          Dispatch(SetError(if m != "" then m else "Failed to load category products"));
      }
      Dispatch(SetLoading(false));
    }

    /** `loadCategories`, with the fetch result as a parameter. */
    method LoadCategories(fetched: Result<JsValue.Value, string>)
      modifies this
      ensures state == AfterLoadCategories(old(state), fetched)
    {
      Dispatch(SetCategories(Some(LoadedCategories(fetched))));
    }
  }
}

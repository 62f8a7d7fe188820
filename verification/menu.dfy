/**
 * The menu page's product filter (frontend/src/pages/Menu.js): a category
 * test, where `"all"` means no test, then a case-insensitive search of the
 * name and the description.
 */
module Menu {
  import opened Text
  import OrderStore

  /** The category id that switches the category test off. */
  const AllCategories := "all"

  /** The category test of the first pass. */
  predicate InCategory(p: OrderStore.Product, selectedCategory: string)
  {
    selectedCategory == AllCategories || p.category == selectedCategory
  }

  /** The search test of the second pass, for a term already lower-cased. */
  predicate MatchesLowered(p: OrderStore.Product, term: string)
  {
    Includes(ToLower(p.name), term) || Includes(ToLower(p.description), term)
  }

  /** The search test: an empty term keeps everything. */
  predicate MatchesSearch(p: OrderStore.Product, searchTerm: string)
  {
    searchTerm == "" || MatchesLowered(p, ToLower(searchTerm))
  }

  /**
   * `filterProducts`: the products that pass both tests, in their original
   * order, each kept as many times as it appears.
   */
  function FilterProducts(products: seq<OrderStore.Product>, selectedCategory: string, searchTerm: string)
    : (r: seq<OrderStore.Product>)
    ensures IsSubsequence(r, products)
    ensures forall p :: p in r <==>
              p in products && InCategory(p, selectedCategory) && MatchesSearch(p, searchTerm)
    ensures forall p :: multiset(r)[p] ==
              if InCategory(p, selectedCategory) && MatchesSearch(p, searchTerm) then multiset(products)[p] else 0
  {
    var byCategory :=
      if selectedCategory != AllCategories then Filter(products, (p: OrderStore.Product) => p.category == selectedCategory)
      else (SubsequenceReflexive(products); products);
    if searchTerm != "" then
      var term := ToLower(searchTerm);
      var r := Filter(byCategory, (p: OrderStore.Product) => MatchesLowered(p, term));
      SubsequenceTransitive(r, byCategory, products);
      r
    else byCategory
  }

  /** With every category and no term, the whole list comes back unchanged. */
  lemma ShowAll(products: seq<OrderStore.Product>)
    ensures FilterProducts(products, AllCategories, "") == products
  {
  }

  /** With one category and no term, exactly that category's products, in order. */
  lemma {:induction false} CategoryOnly(products: seq<OrderStore.Product>, category: string)
    requires category != AllCategories
    requires forall p :: p in products ==> p.category == category
    ensures FilterProducts(products, category, "") == products
  {
    FilterAll(products, (p: OrderStore.Product) => p.category == category);
  }

  /**
   * A search matches in the sense of `String.prototype.includes`: the
   * lower-cased term occurs somewhere in the lower-cased name or description.
   */
  lemma SearchMeaning(p: OrderStore.Product, searchTerm: string)
    requires searchTerm != ""
    ensures MatchesSearch(p, searchTerm) <==>
              OccursIn(ToLower(searchTerm), ToLower(p.name)) || OccursIn(ToLower(searchTerm), ToLower(p.description))
  {
  }

  /** Searching ignores the case of the term. */
  lemma SearchIgnoresCase(products: seq<OrderStore.Product>, selectedCategory: string, searchTerm: string)
    ensures FilterProducts(products, selectedCategory, ToLower(searchTerm))
         == FilterProducts(products, selectedCategory, searchTerm)
  {
    ToLowerIdempotent(searchTerm);
  }

  /** A search only narrows what the category test keeps, and keeps its order. */
  lemma SearchNarrows(products: seq<OrderStore.Product>, selectedCategory: string, searchTerm: string)
    ensures IsSubsequence(FilterProducts(products, selectedCategory, searchTerm),
                          FilterProducts(products, selectedCategory, ""))
  {
    var byCategory := FilterProducts(products, selectedCategory, "");
    if searchTerm == "" {
      SubsequenceReflexive(byCategory);
    }
  }
}

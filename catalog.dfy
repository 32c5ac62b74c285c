/**
 * The catalog filter of App.tsx (`filteredProducts`): a product is shown
 * when it is in the active category (or "All" is active) and the search
 * query occurs, ignoring letter case, in its name or its description.
 */
module Catalog {
  import opened Types
  import opened Text
  import opened Sequences
  import Constants

  predicate MatchesCategory(p: Product, activeCategory: string)
  {
    activeCategory == "All" || p.category == activeCategory
  }

  predicate MatchesSearch(p: Product, searchQuery: string)
  {
    var q := ToLower(searchQuery);
    Includes(ToLower(p.name), q) || Includes(ToLower(p.description), q)
  }

  predicate IsVisible(p: Product, activeCategory: string, searchQuery: string)
  {
    MatchesCategory(p, activeCategory) && MatchesSearch(p, searchQuery)
  }

  /**
   * `PRODUCTS.filter(...)` for a given catalog: exactly the visible
   * products, in catalog order.
   */
  function FilterProducts(products: seq<Product>, activeCategory: string, searchQuery: string): (r: seq<Product>)
    ensures forall p :: p in r <==> p in products && IsVisible(p, activeCategory, searchQuery)
    ensures IsSubsequence(r, products)
  {
    var keep := (p: Product) => IsVisible(p, activeCategory, searchQuery);
    FilterMembers(keep, products);
    FilterIsSubsequence(keep, products);
    Filter(keep, products)
  }

  /** `filteredProducts`: the filter applied to the fixed catalog. */
  function FilteredProducts(activeCategory: string, searchQuery: string): (r: seq<Product>)
    ensures forall p :: p in r <==> p in Constants.Products && IsVisible(p, activeCategory, searchQuery)
    ensures IsSubsequence(r, Constants.Products)
  {
    FilterProducts(Constants.Products, activeCategory, searchQuery)
  }

  /** The empty query matches every product. */
  lemma EmptyQueryMatches(p: Product)
    ensures MatchesSearch(p, "")
  {
    IncludesEmpty(ToLower(p.name));
  }

  /** With "All" active and an empty query, every product is shown, in order. */
  lemma FilterAllEmptyQuery(products: seq<Product>)
    ensures FilterProducts(products, "All", "") == products
  {
    forall k | 0 <= k < |products| ensures IsVisible(products[k], "All", "") {
      EmptyQueryMatches(products[k]);
    }
    FilterKeepsAll(p => IsVisible(p, "All", ""), products);
  }

  /** On first render ("All", "") the whole catalog is shown. */
  lemma InitialViewShowsCatalog()
    ensures FilteredProducts("All", "") == Constants.Products
  {
    FilterAllEmptyQuery(Constants.Products);
  }

  /** With an empty query, a category shows exactly the catalog's products of that category, in order. */
  lemma {:induction false} FilterCategoryEmptyQuery(products: seq<Product>, category: string)
    requires category != "All"
    ensures FilterProducts(products, category, "") == Filter((p: Product) => p.category == category, products)
    decreases |products|
  {
    if products != [] {
      EmptyQueryMatches(products[0]);
      FilterCategoryEmptyQuery(products[1..], category);
    }
  }
}

/** The marketplace page: the search-and-category filter over the product
    list, the category choices offered in the drop-down, and their labels. */
module Marketplace {
  import opened Wrappers
  import opened Text
  import opened Seqs
  import opened Schema

  /** An optional string JavaScript treats as truthy: present and not empty. */
  predicate Present(s: Option<string>) {
    s.Some? && s.value != []
  }

  /** `matchesSearch`: the query occurs, ignoring case, in the title or in a
      non-empty description. */
  predicate MatchesSearch(p: Product, query: string) {
    IncludesIgnoringCase(p.title, query) ||
    (Present(p.description) && IncludesIgnoringCase(p.description.value, query))
  }

  /** The category filter as written: `"all"`, or the product's own category
      compared with `===`, so a product without one never matches. */
  predicate KeptAsWritten(p: Product, query: string, category: string) {
    if category == "all" then MatchesSearch(p, query)
    else MatchesSearch(p, query) && p.category == Some(category)
  }

  /** `filteredProducts` as the page computes it. */
  function FilteredProductsAsWritten(products: seq<Product>, query: string, category: string): (r: seq<Product>)
    ensures forall p :: p in r <==>
      p in products && MatchesSearch(p, query) && (category == "all" || p.category == Some(category))
    ensures IsSubsequence(r, products)
  {
    FilterIsSubsequence(products, p => KeptAsWritten(p, query, category));
    Filter(products, p => KeptAsWritten(p, query, category))
  }

  /** The category a product is listed under: its own when truthy, else
      `"uncategorized"`. */
  function CategoryOf(p: Product): (c: string)
    ensures c != []
    ensures Present(p.category) ==> c == p.category.value
  {
    if Present(p.category) then p.category.value else "uncategorized"
  }

  /** The category filter compared with the category the drop-down lists the
      product under. */
  predicate Kept(p: Product, query: string, category: string) {
    MatchesSearch(p, query) && (category == "all" || CategoryOf(p) == category)
  }

  /** `filteredProducts` with a missing category read as `"uncategorized"`. */
  function FilteredProducts(products: seq<Product>, query: string, category: string): (r: seq<Product>)
    ensures forall p :: p in r <==>
      p in products && MatchesSearch(p, query) && (category == "all" || CategoryOf(p) == category)
    ensures IsSubsequence(r, products)
  {
    FilterIsSubsequence(products, p => Kept(p, query, category));
    Filter(products, p => Kept(p, query, category))
  }

  /** The two filters differ only on products without a category while
      `"uncategorized"` is chosen, and on the empty category. */
  lemma FiltersDifferOnlyOnMissingCategories(p: Product, query: string, category: string)
    requires category != "uncategorized" && category != []
    ensures Kept(p, query, category) == KeptAsWritten(p, query, category)
  {
  }

  /** With an empty query and `"all"`, every product is shown, by either filter. */
  lemma EmptyQueryAllShowsEverything(products: seq<Product>)
    ensures FilteredProducts(products, "", "all") == products
    ensures FilteredProductsAsWritten(products, "", "all") == products
  {
    forall p | p in products ensures Kept(p, "", "all") && KeptAsWritten(p, "", "all") {
      EmptyIncludedEverywhere(p.title);
    }
    FilterAll(products, p => Kept(p, "", "all"));
    FilterAll(products, p => KeptAsWritten(p, "", "all"));
  }

  /** The category of each product, in list order. */
  function CategoriesOf(products: seq<Product>): (cs: seq<string>)
    ensures |cs| == |products|
    ensures forall i :: 0 <= i < |products| ==> cs[i] == CategoryOf(products[i])
  {
    if products == [] then [] else [CategoryOf(products[0])] + CategoriesOf(products[1..])
  }

  /** `categories`: `"all"` first, then every listed category once, in the
      order the products first show it. */
  function Categories(products: seq<Product>): (r: seq<string>)
    ensures |r| >= 1 && r[0] == "all"
    ensures NoDuplicates(r[1..])
    ensures forall c :: c in r[1..] <==> exists p :: p in products && CategoryOf(p) == c
  {
    var cs := CategoriesOf(products);
    assert forall c :: c in cs <==> exists p :: p in products && CategoryOf(p) == c by {
      forall c ensures c in cs <==> exists p :: p in products && CategoryOf(p) == c {
        if c in cs {
          var i :| 0 <= i < |cs| && cs[i] == c;
          assert products[i] in products;
        }
        if exists p :: p in products && CategoryOf(p) == c {
          var p :| p in products && CategoryOf(p) == c;
          var i :| 0 <= i < |products| && products[i] == p;
          assert cs[i] == c;
        }
      }
    }
    assert (["all"] + Distinct(cs))[1..] == Distinct(cs);
    ["all"] + Distinct(cs)
  }

  /** The offered categories after `"all"` come in order of first appearance. */
  lemma CategoriesInFirstAppearanceOrder(products: seq<Product>)
    ensures var r := Categories(products)[1..]; var cs := CategoriesOf(products);
      forall i, j :: 0 <= i < j < |r| ==> IndexOf(cs, r[i]) < IndexOf(cs, r[j])
  {
    var cs := CategoriesOf(products);
    assert Categories(products)[1..] == Distinct(cs);
    DistinctKeepsFirstAppearanceOrder(cs);
  }

  /** Every category the drop-down offers shows at least one product when the
      query is empty. */
  lemma EveryOfferedCategoryShowsAProduct(products: seq<Product>, category: string)
    requires category in Categories(products)[1..]
    ensures FilteredProducts(products, "", category) != []
  {
    var p :| p in products && CategoryOf(p) == category;
    EmptyIncludedEverywhere(p.title);
    assert p in FilteredProducts(products, "", category);
  }

  /** As written, choosing `"uncategorized"` hides the very product it was
      offered for. */
  lemma UncategorizedShowsNothingAsWritten(p: Product)
    requires p.category.None?
    ensures "uncategorized" in Categories([p])[1..]
    ensures FilteredProductsAsWritten([p], "", "uncategorized") == []
  {
    assert [p][0] == p;
  }

  /** The drop-down label: `"All Categories"` for `"all"`, otherwise the
      category with its first letter upper-cased and the rest kept. */
  function CategoryLabel(category: string): (shown: string)
    ensures category == "all" ==> shown == "All Categories"
    ensures category != "all" ==>
      |shown| == |category| && (category != [] ==> shown[0] == UpperChar(category[0]) && shown[1..] == category[1..])
  {
    if category == "all" then "All Categories" else Capitalize(category)
  }
}

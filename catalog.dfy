// The catalog view: products filtered by the search box and the selected
// category, recomputed whenever either changes.

module Catalog {
  import opened Types
  import opened Text
  import opened Lists

  /** The category selector: every category, or one of them. */
  datatype CategoryFilter = All | Only(category: Category)

  /** Name or brand contains the query, ignoring case, and the category fits. */
  predicate Matches(p: Product, query: string, selected: CategoryFilter)
  {
    (Includes(Lower(p.name), Lower(query)) || Includes(Lower(p.brand), Lower(query)))
    && (selected == All || selected.category == p.category)
  }

  function MatchesFn(query: string, selected: CategoryFilter): Product -> bool
  {
    (p: Product) => Matches(p, query, selected)
  }

  /** The products shown in the grid. */
  function Visible(products: seq<Product>, query: string, selected: CategoryFilter): seq<Product>
  {
    Filter(products, MatchesFn(query, selected))
  }

  function InCategory(c: Category): Product -> bool
  {
    (p: Product) => p.category == c
  }

  /** A product is visible iff its name or brand matches and its category is selected; order is kept. */
  lemma VisibleSpec(products: seq<Product>, query: string, selected: CategoryFilter)
    ensures forall p :: p in Visible(products, query, selected) <==>
      p in products
      && (Includes(Lower(p.name), Lower(query)) || Includes(Lower(p.brand), Lower(query)))
      && (selected.All? || selected.category == p.category)
    ensures IsSubsequence(Visible(products, query, selected), products)
  {
    forall p ensures p in Visible(products, query, selected) <==> p in products && Matches(p, query, selected) {
      FilterMembership(products, MatchesFn(query, selected), p);
    }
    FilterIsSubsequence(products, MatchesFn(query, selected));
  }

  /** An empty search with "All" shows the whole catalog. */
  lemma VisibleEverything(products: seq<Product>)
    ensures Visible(products, "", All) == products
  {
    forall k | 0 <= k < |products| ensures MatchesFn("", All)(products[k]) {
      assert Lower("") == "";
      IncludesEmpty(Lower(products[k].name));
    }
    FilterAllKept(products, MatchesFn("", All));
  }

  /** An empty search with one category shows exactly that category's products, in catalog order. */
  lemma VisibleCategoryOnly(products: seq<Product>, c: Category)
    ensures Visible(products, "", Only(c)) == Filter(products, InCategory(c))
  {
    forall k | 0 <= k < |products|
      ensures MatchesFn("", Only(c))(products[k]) == InCategory(c)(products[k])
    {
      assert Lower("") == "";
      IncludesEmpty(Lower(products[k].name));
    }
    FilterCongruent(products, MatchesFn("", Only(c)), InCategory(c));
  }

  /** The case of the query does not matter. */
  lemma VisibleIgnoresQueryCase(products: seq<Product>, query: string, selected: CategoryFilter)
    ensures Visible(products, query, selected) == Visible(products, Lower(query), selected)
  {
    LowerIdempotent(query);
    FilterCongruent(products, MatchesFn(query, selected), MatchesFn(Lower(query), selected));
  }
}

/**
 * The product listing (`ProductListings` component): the product catalog, the
 * query/category filter that decides which product cards are shown, and the
 * list of favourited product ids that the heart buttons toggle.
 */
module Listings {
  import opened Wrappers
  import opened Text
  import opened Seqs

  /** The supplier summary embedded in each product. */
  datatype SupplierSummary = SupplierSummary(name: string, location: string, rating: real, verified: bool)

  datatype Product = Product(
    id: string,
    name: string,
    price: string,       // a display string such as "$125.00 - $180.00"
    minOrder: string,    // a display string such as "10 pieces"
    supplier: SupplierSummary,
    category: string,
    specifications: seq<string>)

  /** The category value that switches the category test off. */
  const AllCategories := "all"

  /** The six products the component lists. */
  const Catalog: seq<Product> := [
    Product("1", "Professional LED Display Panel", "$125.00 - $180.00", "10 pieces",
      SupplierSummary("Shenzhen Tech Manufacturing Co.", "Shenzhen, China", 4.8, true),
      "electronics", ["Full HD Resolution", "IP65 Rated", "3-Year Warranty"]),
    Product("2", "Industrial CNC Machining Center", "$15,000 - $45,000", "1 unit",
      SupplierSummary("Precision Machinery Ltd", "Guangzhou, China", 4.9, true),
      "machinery", ["High Precision", "Automatic Tool Change", "CE Certified"]),
    Product("3", "Organic Cotton Fabric Roll", "$3.50 - $5.20", "500 meters",
      SupplierSummary("Green Textiles Group", "Hangzhou, China", 4.7, true),
      "textiles", ["GOTS Certified", "Pre-shrunk", "Multiple Colors"]),
    Product("4", "Smart Home Security Camera", "$28.00 - $45.00", "50 pieces",
      SupplierSummary("Innovation Electronics Corp", "Dongguan, China", 4.6, false),
      "electronics", ["1080P HD", "Night Vision", "Mobile App Control"]),
    Product("5", "Stainless Steel Kitchen Equipment", "$250.00 - $380.00", "20 pieces",
      SupplierSummary("Professional Kitchen Solutions", "Foshan, China", 4.8, true),
      "home & garden", ["Food Grade Steel", "Easy to Clean", "Commercial Grade"]),
    Product("6", "Solar Panel System Kit", "$180.00 - $320.00", "10 sets",
      SupplierSummary("Green Energy Manufacturing", "Jiangsu, China", 4.9, true),
      "construction", ["High Efficiency", "25-Year Warranty", "Weather Resistant"])
  ]

  // ---------------------------------------------------------------------------
  // The filter

  /** `matchesSearch`: an empty query, or the lower-cased query inside the lower-cased
      product name or supplier name. */
  predicate MatchesSearch(p: Product, query: string)
  {
    query == ""
    || Contains(Lower(p.name), Lower(query))
    || Contains(Lower(p.supplier.name), Lower(query))
  }

  /** `matchesCategory`: category "all", or exactly the product's category. */
  predicate MatchesCategory(p: Product, category: string)
  {
    category == AllCategories || p.category == category
  }

  /** The test handed to `filter`. */
  function VisibleFor(query: string, category: string): Product -> bool
  {
    p => MatchesSearch(p, query) && MatchesCategory(p, category)
  }

  /** `filteredProducts`: the products that pass both tests, in catalog order. */
  function FilteredProducts(products: seq<Product>, query: string, category: string): (r: seq<Product>)
    ensures IsSubsequence(r, products)
    ensures forall i :: 0 <= i < |r| ==> MatchesSearch(r[i], query) && MatchesCategory(r[i], category)
  {
    Filter(VisibleFor(query, category), products)
  }

  /** The result keeps catalog order and invents or repeats nothing: each product
      occurs in it at most as often as in the input. */
  lemma FilteredProductsOrderAndCount(products: seq<Product>, query: string, category: string)
    ensures IsSubsequence(FilteredProducts(products, query, category), products)
    ensures multiset(FilteredProducts(products, query, category)) <= multiset(products)
  {
    SubsequenceMultiset(FilteredProducts(products, query, category), products);
  }

  /** A product is shown exactly when it is listed and passes both the search and
      the category test; one that passes is shown as often as it is listed. */
  lemma FilteredProductsExactly(products: seq<Product>, query: string, category: string, p: Product)
    ensures p in FilteredProducts(products, query, category)
        <==> p in products && MatchesSearch(p, query) && MatchesCategory(p, category)
    ensures multiset(FilteredProducts(products, query, category))[p]
        == if MatchesSearch(p, query) && MatchesCategory(p, category) then multiset(products)[p] else 0
  {
    FilterMembership(VisibleFor(query, category), products, p);
    FilterMultiplicity(VisibleFor(query, category), products, p);
  }

  /** Every shown product, under a non-empty query, carries the lower-cased query in
      its lower-cased name or supplier name. */
  lemma FilteredProductsMatchQuery(products: seq<Product>, query: string, category: string, p: Product)
    requires query != ""
    requires p in FilteredProducts(products, query, category)
    ensures Contains(Lower(p.name), Lower(query)) || Contains(Lower(p.supplier.name), Lower(query))
  {
    FilterMembership(VisibleFor(query, category), products, p);
  }

  /** Every shown product, under a category other than "all", is in that category. */
  lemma FilteredProductsMatchCategory(products: seq<Product>, query: string, category: string, p: Product)
    requires category != AllCategories
    requires p in FilteredProducts(products, query, category)
    ensures p.category == category
  {
    FilterMembership(VisibleFor(query, category), products, p);
  }

  /** With the empty query and category "all" the whole input is shown, in order. */
  lemma UnfilteredShowsAll(products: seq<Product>)
    ensures FilteredProducts(products, "", AllCategories) == products
  {
    FilterKeepsAll(VisibleFor("", AllCategories), products);
  }

  /** Queries with the same lower-cased form select the same products. */
  lemma FilteredProductsCaseInsensitive(products: seq<Product>, q1: string, q2: string, category: string)
    requires Lower(q1) == Lower(q2)
    ensures FilteredProducts(products, q1, category) == FilteredProducts(products, q2, category)
  {
    assert |q1| == |q2|;
    FilterCongruent(VisibleFor(q1, category), VisibleFor(q2, category), products);
  }

  // ---------------------------------------------------------------------------
  // What the listing shows

  /** One product card: the product, whether its heart is filled, whether it carries
      the "Verified" badge, and the specification badges it shows. */
  datatype ProductCard = ProductCard(product: Product, heartFilled: bool, verifiedBadge: bool, specBadges: seq<string>)

  /** The listing: the count in the "Products (n)" heading, the cards, and whether
      the "No products found" notice is shown. */
  datatype ProductsView = ProductsView(heading: nat, cards: seq<ProductCard>, noProductsNotice: bool)

  function Card(p: Product, favorites: seq<string>): ProductCard
  {
    ProductCard(p, p.id in favorites, p.supplier.verified,
                p.specifications[..if |p.specifications| < 2 then |p.specifications| else 2])
  }

  /** The rendered listing for the given props and favourites, as the component is
      evidently meant to render it: the "No products found" notice stands in for an
      empty result. */
  function RenderProducts(products: seq<Product>, query: string, category: string, favorites: seq<string>)
    : (v: ProductsView)
    ensures v.heading == |v.cards| == |FilteredProducts(products, query, category)|
    ensures v.noProductsNotice <==> v.heading == 0
    ensures forall i :: 0 <= i < |v.cards| ==>
      var p := FilteredProducts(products, query, category)[i];
      && v.cards[i].product == p
      && (v.cards[i].heartFilled <==> p.id in favorites)
      && (v.cards[i].verifiedBadge <==> p.supplier.verified)
      && v.cards[i].specBadges <= p.specifications
      && |v.cards[i].specBadges| == if |p.specifications| < 2 then |p.specifications| else 2
  {
    var shown := FilteredProducts(products, query, category);
    var cards := seq(|shown|, i requires 0 <= i < |shown| => Card(shown[i], favorites));
    ProductsView(|cards|, cards, |shown| == 0)
  }

  /** The listing as the component is written: the empty-result branch draws a
      `Package` icon that the file never imports, so rendering an empty result throws
      and nothing is shown (`None`). Otherwise it renders as `RenderProducts`. */
  function RenderProductsAsWritten(products: seq<Product>, query: string, category: string, favorites: seq<string>)
    : (v: Option<ProductsView>)
    ensures v.None? <==> FilteredProducts(products, query, category) == []
    ensures v.Some? ==> v.value == RenderProducts(products, query, category, favorites) && v.value.cards != []
  {
    if FilteredProducts(products, query, category) == [] then None
    else Some(RenderProducts(products, query, category, favorites))
  }

  /** A category that no listed product has selects nothing. */
  lemma {:induction false} UnlistedCategoryShowsNothing(products: seq<Product>, query: string, category: string)
    requires category != AllCategories
    requires forall i :: 0 <= i < |products| ==> products[i].category != category
    ensures FilteredProducts(products, query, category) == []
  {
    var r := FilteredProducts(products, query, category);
    if r != [] {
      FilterMembership(VisibleFor(query, category), products, r[0]);
      assert false;
    }
  }

  /** The discrepancy on the shipped catalog: with category "chemicals" (the fourth hero
      badge) the component as written fails to render, where the intended listing shows
      the "No products found" notice. */
  lemma ChemicalsListingFails(query: string, favorites: seq<string>)
    ensures RenderProductsAsWritten(Catalog, query, "chemicals", favorites).None?
    ensures RenderProducts(Catalog, query, "chemicals", favorites).noProductsNotice
  {
    UnlistedCategoryShowsNothing(Catalog, query, "chemicals");
  }

  // ---------------------------------------------------------------------------
  // The favourites

  /** `prev.includes(id) ? prev.filter(x => x !== id) : [...prev, id]`. */
  function Toggled(favorites: seq<string>, id: string): (r: seq<string>)
    ensures id in r <==> id !in favorites
    ensures |r| <= |favorites| + 1
  {
    if id in favorites then Filter(Other(id), favorites) else favorites + [id]
  }

  /** The test `x => x !== id` that removes `id`. */
  function Other(id: string): string -> bool
  {
    x => x != id
  }

  /** Toggling changes the presence of `id` and of nothing else: every occurrence goes
      when it was present, it is added when it was absent. */
  lemma ToggledMembership(favorites: seq<string>, id: string, x: string)
    ensures x in Toggled(favorites, id) <==> if x == id then id !in favorites else x in favorites
  {
    if id in favorites {
      FilterMembership(Other(id), favorites, x);
    }
  }

  /** Toggling keeps the list free of duplicates. */
  lemma ToggledNoDuplicates(favorites: seq<string>, id: string)
    requires NoDuplicates(favorites)
    ensures NoDuplicates(Toggled(favorites, id))
  {
    if id in favorites {
      SubsequenceNoDuplicates(Filter(Other(id), favorites), favorites);
    }
  }

  /** Toggling the same id twice gives back the same set of ids. It gives back the very
      same list exactly when the id was absent, or occurred once, as the last element. */
  lemma ToggledTwice(favorites: seq<string>, id: string)
    ensures forall x :: x in Toggled(Toggled(favorites, id), id) <==> x in favorites
    ensures Toggled(Toggled(favorites, id), id) == favorites <==>
      id !in favorites || (favorites[|favorites| - 1] == id && id !in favorites[..|favorites| - 1])
  {
    forall x
      ensures x in Toggled(Toggled(favorites, id), id) <==> x in favorites
    {
      ToggledMembership(favorites, id, x);
      ToggledMembership(Toggled(favorites, id), id, x);
    }
    if id !in favorites {
      FilterAppend(Other(id), favorites, [id]);
      FilterKeepsAll(Other(id), favorites);
    } else {
      RemoveThenAppend(favorites, id);
    }
  }

  /** Removing every `id` and appending one gives back the list exactly when `id` occurs
      in it once, as the last element. */
  lemma RemoveThenAppend(favorites: seq<string>, id: string)
    requires id in favorites
    ensures Filter(Other(id), favorites) + [id] == favorites <==>
      favorites[|favorites| - 1] == id && id !in favorites[..|favorites| - 1]
  {
    var n := |favorites|;
    var prefix := favorites[..n - 1];
    if favorites[n - 1] == id && id !in prefix {
      RemoveThenAppendRestores(prefix, id);
      assert favorites == prefix + [id];
    }
    var f := Filter(Other(id), favorites);
    if f + [id] == favorites {
      assert f == (f + [id])[..n - 1];
      assert forall k :: 0 <= k < |f| ==> Other(id)(f[k]);
    }
  }

  /** The restoring direction: a list whose only `id` is its last element comes back. */
  lemma RemoveThenAppendRestores(prefix: seq<string>, id: string)
    requires id !in prefix
    ensures Filter(Other(id), prefix + [id]) + [id] == prefix + [id]
  {
    FilterAppend(Other(id), prefix, [id]);
    FilterKeepsAll(Other(id), prefix);
    assert [id][1..] == [];
    assert Filter(Other(id), [id]) == [];
  }

  /** The list after a run of clicks, starting from `start`. */
  function ToggledAll(start: seq<string>, clicks: seq<string>): seq<string>
    decreases |clicks|
  {
    if clicks == [] then start else ToggledAll(Toggled(start, clicks[0]), clicks[1..])
  }

  /** From the initial empty list, no run of clicks ever produces a duplicate. */
  lemma {:induction false} ClicksKeepNoDuplicates(start: seq<string>, clicks: seq<string>)
    requires NoDuplicates(start)
    ensures NoDuplicates(ToggledAll(start, clicks))
    decreases |clicks|
  {
    if clicks != [] {
      ToggledNoDuplicates(start, clicks[0]);
      ClicksKeepNoDuplicates(Toggled(start, clicks[0]), clicks[1..]);
    }
  }

  /** The component's `favorites` state. */
  class ProductListings {
    var favorites: seq<string>

    ghost predicate Valid()
      reads this
    {
      NoDuplicates(favorites)
    }

    /** `useState<string[]>([])`. */
    constructor ()
      ensures favorites == [] && Valid()
    {
      favorites := [];
    }

    /** Whether the heart of product `id` is drawn filled. */
    function IsFavorite(id: string): bool
      reads this
    {
      id in favorites
    }

    /** `toggleFavorite(id)`, run by a click on a product's heart. */
    method ToggleFavorite(id: string)
      requires Valid()
      modifies this
      ensures Valid()
      ensures favorites == Toggled(old(favorites), id)
      ensures IsFavorite(id) <==> !old(IsFavorite(id))
    {
      ToggledNoDuplicates(favorites, id);
      ToggledMembership(favorites, id, id);
      if id in favorites {
        favorites := Filter(Other(id), favorites);
      } else {
        favorites := favorites + [id];
      }
    }
  }
}

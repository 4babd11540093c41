/**
 * The marketplace page (`Index`): the active tab, the search query, the selected
 * category and whether the messaging panel is open, the handlers that change
 * them, and which listing the page renders with which props.
 */
module IndexPage {
  import opened Wrappers
  import opened Text
  import Filters
  import Listings
  import Messaging

  /** The listing rendered in the main area, with the props it receives. */
  datatype Listing =
    | ProductListingsView(searchQuery: string, category: string)
    | SupplierProfilesView(searchQuery: string)

  /** The category names of the hero section; the first six are shown as badges. */
  const HeroCategories: seq<string> := [
    "Electronics", "Machinery", "Textiles", "Chemicals", "Construction",
    "Automotive", "Home & Garden", "Sports", "Fashion", "Food & Beverage"]

  const HeroBadgeCount := 6

  /** The main area: the products listing while the tab is "products", with both the
      query and the category; the supplier listing while it is "suppliers", with the
      query alone. Exactly one listing renders on either tab, none on any other. */
  function MainListings(activeTab: string, searchQuery: string, category: string): (r: seq<Listing>)
    ensures activeTab == "products" ==> r == [ProductListingsView(searchQuery, category)]
    ensures activeTab == "suppliers" ==> r == [SupplierProfilesView(searchQuery)]
    ensures |r| == 1 <==> activeTab in {"products", "suppliers"}
    ensures |r| == 0 <==> activeTab !in {"products", "suppliers"}
  {
    (if activeTab == "products" then [ProductListingsView(searchQuery, category)] else [])
    + (if activeTab == "suppliers" then [SupplierProfilesView(searchQuery)] else [])
  }

  /** The category a hero badge selects: its name lower-cased. */
  function HeroBadgeCategory(i: nat): (id: string)
    requires i < HeroBadgeCount
    ensures id == Lower(HeroCategories[i])
    ensures id == Filters.Categories[i + 1].id && id in Filters.CategoryIds()
  {
    HeroBadgesLowerToIds(i);
    assert Filters.CategoryIds()[i + 1] == Filters.Categories[i + 1].id;
    Lower(HeroCategories[i])
  }

  /** Each badge lowers to the id in the next row of the filter panel's table
      (row 0 is "all"). */
  lemma HeroBadgesLowerToIds(i: nat)
    requires i < HeroBadgeCount
    ensures Lower(HeroCategories[i]) == Filters.Categories[i + 1].id
  {
    HeroBadge0(); HeroBadge1(); HeroBadge2(); HeroBadge3(); HeroBadge4(); HeroBadge5();
  }

  // One lemma per badge keeps each literal comparison in a proof of its own.

  lemma HeroBadge0()
    ensures Lower(HeroCategories[0]) == Filters.Categories[1].id
  {
  }

  lemma HeroBadge1()
    ensures Lower(HeroCategories[1]) == Filters.Categories[2].id
  {
  }

  lemma HeroBadge2()
    ensures Lower(HeroCategories[2]) == Filters.Categories[3].id
  {
  }

  lemma HeroBadge3()
    ensures Lower(HeroCategories[3]) == Filters.Categories[4].id
  {
  }

  lemma HeroBadge4()
    ensures Lower(HeroCategories[4]) == Filters.Categories[5].id
  {
  }

  lemma HeroBadge5()
    ensures Lower(HeroCategories[5]) == Filters.Categories[6].id
  {
  }

  /** What the page shows on first load: the whole product catalog, in order. */
  lemma FirstLoadShowsWholeCatalog()
    ensures Listings.RenderProducts(Listings.Catalog, "", "all", []).cards != []
    ensures Listings.FilteredProducts(Listings.Catalog, "", "all") == Listings.Catalog
  {
    Listings.UnfilteredShowsAll(Listings.Catalog);
  }

  /** The page's state, with the child components it has mounted. A child is mounted
      only while its condition holds (`listings` on the products tab, `messaging` while
      the panel is shown); unmounting it discards its state, and mounting it again
      starts from the child's initial state. */
  class Index {
    var activeTab: string
    var searchQuery: string
    var selectedCategory: string
    var showMessaging: bool
    var listings: Listings.ProductListings?
    var messaging: Messaging.MessagingPanel?

    /** The tab is one of the two the buttons set, the category is a known id, and a
        child is mounted exactly while the page renders it. */
    ghost predicate Valid()
      reads this, listings
    {
      && activeTab in {"products", "suppliers"}
      && selectedCategory in Filters.CategoryIds()
      && (listings != null <==> activeTab == "products")
      && (messaging != null <==> showMessaging)
      && (listings != null ==> listings.Valid())
    }

    /** The initial state: products tab with a fresh products listing, empty query,
        category "all", messaging hidden. */
    constructor ()
      ensures activeTab == "products" && searchQuery == "" && selectedCategory == "all"
      ensures !showMessaging && messaging == null
      ensures listings != null && fresh(listings) && listings.favorites == []
      ensures Valid()
    {
      activeTab := "products";
      searchQuery := "";
      selectedCategory := "all";
      showMessaging := false;
      listings := new Listings.ProductListings();
      messaging := null;
      Filters.CategoryIdsDistinct();
    }

    /** The listings the main area renders in the current state. */
    function Rendered(): seq<Listing>
      reads this
    {
      MainListings(activeTab, searchQuery, selectedCategory)
    }

    /** The "Products" tab button. Coming from the suppliers tab mounts a new products
        listing, whose favourites start empty; on the products tab nothing changes. */
    method ClickProductsTab()
      requires Valid()
      modifies this
      ensures Valid() && activeTab == "products"
      ensures searchQuery == old(searchQuery) && selectedCategory == old(selectedCategory)
      ensures showMessaging == old(showMessaging) && messaging == old(messaging)
      ensures old(activeTab) == "products" ==> listings == old(listings)
      ensures old(activeTab) != "products" ==> listings != null && fresh(listings) && listings.favorites == []
      ensures Rendered() == [ProductListingsView(searchQuery, selectedCategory)]
    {
      if listings == null {
        listings := new Listings.ProductListings();
      }
      activeTab := "products";
    }

    /** The "Suppliers" tab button: the products listing is unmounted and its favourites
        are discarded. */
    method ClickSuppliersTab()
      requires Valid()
      modifies this
      ensures Valid() && activeTab == "suppliers" && listings == null
      ensures searchQuery == old(searchQuery) && selectedCategory == old(selectedCategory)
      ensures showMessaging == old(showMessaging) && messaging == old(messaging)
      ensures Rendered() == [SupplierProfilesView(searchQuery)]
    {
      activeTab := "suppliers";
      listings := null;
    }

    /** The search input's `onChange`. */
    method EditSearch(query: string)
      requires Valid()
      modifies this
      ensures Valid() && searchQuery == query
      ensures activeTab == old(activeTab) && selectedCategory == old(selectedCategory)
      ensures showMessaging == old(showMessaging)
      ensures listings == old(listings) && messaging == old(messaging)
    {
      searchQuery := query;
    }

    /** The "Messages" button. Opening mounts a new panel (conversation "1" selected,
        empty draft); closing unmounts it and discards its selection and draft. */
    method ToggleMessaging()
      requires Valid()
      modifies this
      ensures Valid() && showMessaging == !old(showMessaging)
      ensures showMessaging ==> messaging != null && fresh(messaging)
      ensures showMessaging ==> messaging.selectedConversation == Some("1") && messaging.newMessage == ""
      ensures !showMessaging ==> messaging == null
      ensures activeTab == old(activeTab) && searchQuery == old(searchQuery)
      ensures selectedCategory == old(selectedCategory) && listings == old(listings)
    {
      if showMessaging {
        messaging := null;
      } else {
        messaging := new Messaging.MessagingPanel();
      }
      showMessaging := !showMessaging;
    }

    /** A click on hero badge `i`: the category becomes the badge's name lower-cased. */
    method ClickHeroBadge(i: nat)
      requires Valid()
      requires i < HeroBadgeCount
      modifies this
      ensures Valid() && selectedCategory == Lower(HeroCategories[i])
      ensures activeTab == old(activeTab) && searchQuery == old(searchQuery)
      ensures showMessaging == old(showMessaging)
      ensures listings == old(listings) && messaging == old(messaging)
    {
      selectedCategory := HeroBadgeCategory(i);
    }

    /** A click on row `i` of the filter panel's category table (`onCategoryChange`). */
    method ChooseCategory(i: nat)
      requires Valid()
      requires i < |Filters.Categories|
      modifies this
      ensures Valid() && selectedCategory == Filters.Categories[i].id
      ensures activeTab == old(activeTab) && searchQuery == old(searchQuery)
      ensures showMessaging == old(showMessaging)
      ensures listings == old(listings) && messaging == old(messaging)
    {
      selectedCategory := Filters.Categories[i].id;
    }
  }
}

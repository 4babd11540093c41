/**
 * The supplier directory (`SupplierProfiles` component): the supplier list, the
 * query filter over name, location and main products, and the supplier cards
 * with their main-product badges.
 */
module Suppliers {
  import opened Wrappers
  import opened Text
  import opened Seqs

  datatype Supplier = Supplier(
    id: string,
    name: string,
    location: string,
    rating: real,
    reviewCount: nat,
    verified: bool,
    yearEstablished: int,
    employees: string,       // a display bucket such as "501-1000"
    mainProducts: seq<string>,
    certifications: seq<string>,
    responseRate: int,       // a percentage, 0..100
    responseTime: string,    // a display string such as "< 2 hours"
    description: string)

  /** The six suppliers the component lists. */
  const Directory: seq<Supplier> := [
    Supplier("1", "Shenzhen Tech Manufacturing Co.", "Shenzhen, Guangdong, China", 4.8, 1247, true, 2008,
      "501-1000", ["LED Displays", "Electronic Components", "Smart Devices"],
      ["ISO 9001", "CE", "FCC", "RoHS"], 98, "< 2 hours",
      "Leading manufacturer of electronic components and LED display solutions with 15+ years of experience serving global markets."),
    Supplier("2", "Precision Machinery Ltd", "Guangzhou, Guangdong, China", 4.9, 892, true, 2005,
      "201-500", ["CNC Machines", "Industrial Equipment", "Automation Systems"],
      ["ISO 9001", "CE", "SGS"], 95, "< 3 hours",
      "Specialized in precision machinery and industrial automation with advanced manufacturing facilities and R&D capabilities."),
    Supplier("3", "Green Textiles Group", "Hangzhou, Zhejiang, China", 4.7, 2156, true, 2012,
      "1001-5000", ["Organic Cotton", "Sustainable Fabrics", "Textile Materials"],
      ["GOTS", "OEKO-TEX", "ISO 14001"], 92, "< 4 hours",
      "Eco-friendly textile manufacturer committed to sustainable production and organic materials for the global fashion industry."),
    Supplier("4", "Innovation Electronics Corp", "Dongguan, Guangdong, China", 4.6, 756, false, 2015,
      "101-200", ["Smart Home Devices", "Security Systems", "IoT Products"],
      ["CE", "FCC"], 88, "< 6 hours",
      "Innovative electronics company focusing on smart home solutions and IoT devices with competitive pricing and fast delivery."),
    Supplier("5", "Professional Kitchen Solutions", "Foshan, Guangdong, China", 4.8, 634, true, 2010,
      "301-500", ["Commercial Kitchen Equipment", "Stainless Steel Products", "Food Service Equipment"],
      ["ISO 9001", "NSF", "CE"], 94, "< 3 hours",
      "Professional manufacturer of commercial kitchen equipment and stainless steel products for restaurants and food service industry."),
    Supplier("6", "Green Energy Manufacturing", "Jiangsu, China", 4.9, 1892, true, 2006,
      "1001-5000", ["Solar Panels", "Renewable Energy Systems", "Energy Storage Solutions"],
      ["ISO 9001", "IEC", "TUV", "UL"], 97, "< 2 hours",
      "Leading renewable energy manufacturer with cutting-edge solar technology and comprehensive energy solutions for global markets.")
  ]

  // ---------------------------------------------------------------------------
  // The filter

  /** `mainProducts.some(product => product.toLowerCase().includes(q))`. */
  predicate SomeMainProductContains(mainProducts: seq<string>, lowerQuery: string)
  {
    exists i :: 0 <= i < |mainProducts| && Contains(Lower(mainProducts[i]), lowerQuery)
  }

  /** The test handed to `filter`: an empty query, or the lower-cased query inside the
      lower-cased name, location, or one of the main products. */
  predicate MatchesQuery(s: Supplier, query: string)
  {
    query == ""
    || Contains(Lower(s.name), Lower(query))
    || Contains(Lower(s.location), Lower(query))
    || SomeMainProductContains(s.mainProducts, Lower(query))
  }

  function MatchesFor(query: string): Supplier -> bool
  {
    s => MatchesQuery(s, query)
  }

  /** `filteredSuppliers`: the suppliers that match the query, in list order. */
  function FilteredSuppliers(suppliers: seq<Supplier>, query: string): (r: seq<Supplier>)
    ensures IsSubsequence(r, suppliers)
    ensures forall i :: 0 <= i < |r| ==> MatchesQuery(r[i], query)
  {
    Filter(MatchesFor(query), suppliers)
  }

  /** The result keeps list order and each supplier occurs in it at most as often as in
      the input. */
  lemma FilteredSuppliersOrderAndCount(suppliers: seq<Supplier>, query: string)
    ensures IsSubsequence(FilteredSuppliers(suppliers, query), suppliers)
    ensures multiset(FilteredSuppliers(suppliers, query)) <= multiset(suppliers)
  {
    SubsequenceMultiset(FilteredSuppliers(suppliers, query), suppliers);
  }

  /** A supplier is shown exactly when it is listed and the query is empty or occurs,
      ignoring ASCII case, in its name, its location or one of its main products. */
  lemma FilteredSuppliersExactly(suppliers: seq<Supplier>, query: string, s: Supplier)
    ensures s in FilteredSuppliers(suppliers, query) <==>
      s in suppliers &&
      (query == ""
       || Contains(Lower(s.name), Lower(query))
       || Contains(Lower(s.location), Lower(query))
       || exists i :: 0 <= i < |s.mainProducts| && Contains(Lower(s.mainProducts[i]), Lower(query)))
  {
    FilterMembership(MatchesFor(query), suppliers, s);
  }

  /** The empty query shows every supplier, in order. */
  lemma EmptyQueryShowsAll(suppliers: seq<Supplier>)
    ensures FilteredSuppliers(suppliers, "") == suppliers
  {
    FilterKeepsAll(MatchesFor(""), suppliers);
  }

  /** Queries with the same lower-cased form show the same suppliers. */
  lemma FilteredSuppliersCaseInsensitive(suppliers: seq<Supplier>, q1: string, q2: string)
    requires Lower(q1) == Lower(q2)
    ensures FilteredSuppliers(suppliers, q1) == FilteredSuppliers(suppliers, q2)
  {
    assert |q1| == |q2|;
    FilterCongruent(MatchesFor(q1), MatchesFor(q2), suppliers);
  }

  // ---------------------------------------------------------------------------
  // What the directory shows

  /** The main-product badges of a card: the products shown by name, and the number in
      the trailing "+n more" badge when there is one. */
  datatype Badges = Badges(shown: seq<string>, more: Option<nat>)

  /** `mainProducts.slice(0, 3)` and, when there are more than three, `+{length - 3} more`. */
  function MainProductBadges(mainProducts: seq<string>): (b: Badges)
    ensures |b.shown| == if |mainProducts| < 3 then |mainProducts| else 3
    ensures b.shown <= mainProducts
    ensures b.more.Some? <==> |mainProducts| > 3
    ensures b.more.Some? ==> |b.shown| + b.more.value == |mainProducts|
    ensures b.more.None? ==> b.shown == mainProducts
  {
    var n := |mainProducts|;
    Badges(mainProducts[..if n < 3 then n else 3], if n > 3 then Some(n - 3) else None)
  }

  /** The text of the "+n more" badge. */
  function MoreLabel(hidden: nat): (text: string)
    ensures |text| >= 7 && text[0] == '+' && text[|text| - 5..] == " more"
    ensures IsDigits(text[1..|text| - 5])
    ensures DigitsValue(text[1..|text| - 5]) == hidden
    ensures |text| > 7 ==> text[1] != '0'
  {
    var text := "+" + NatToString(hidden) + " more";
    assert text[1..|text| - 5] == NatToString(hidden);
    NatToStringRoundTrip(hidden);
    text
  }

  /** Every listed supplier has exactly three main products, so no card in the directory
      carries a "+n more" badge. */
  lemma DirectoryShowsNoMoreBadge()
    ensures forall i :: 0 <= i < |Directory| ==>
      MainProductBadges(Directory[i].mainProducts) == Badges(Directory[i].mainProducts, None)
  {
  }

  datatype SupplierCard = SupplierCard(supplier: Supplier, verifiedBadge: bool, badges: Badges)

  /** The directory: the count in the "Suppliers (n)" heading, the cards, and whether
      the "No suppliers found" notice is shown. */
  datatype SuppliersView = SuppliersView(heading: nat, cards: seq<SupplierCard>, noSuppliersNotice: bool)

  function RenderSuppliers(suppliers: seq<Supplier>, query: string): (v: SuppliersView)
    ensures v.heading == |v.cards| == |FilteredSuppliers(suppliers, query)|
    ensures v.noSuppliersNotice <==> v.heading == 0
    ensures forall i :: 0 <= i < |v.cards| ==>
      var s := FilteredSuppliers(suppliers, query)[i];
      && v.cards[i].supplier == s
      && (v.cards[i].verifiedBadge <==> s.verified)
      && v.cards[i].badges == MainProductBadges(s.mainProducts)
  {
    var shown := FilteredSuppliers(suppliers, query);
    var cards := seq(|shown|, i requires 0 <= i < |shown| =>
      SupplierCard(shown[i], shown[i].verified, MainProductBadges(shown[i].mainProducts)));
    SuppliersView(|cards|, cards, |shown| == 0)
  }
}

/**
 * The filter side panel (`SearchFilters` component): which sections are expanded,
 * the price-range state, the table of category ids and the formatting of the
 * counts shown beside each facet.
 */
module Filters {
  import opened Text
  import opened Seqs

  // ---------------------------------------------------------------------------
  // The category table

  datatype CategoryEntry = CategoryEntry(id: string, name: string, count: nat)

  /** The categories the panel lists, "all" first. */
  const Categories: seq<CategoryEntry> := [
    CategoryEntry("all", "All Categories", 2500000),
    CategoryEntry("electronics", "Electronics", 450000),
    CategoryEntry("machinery", "Machinery", 320000),
    CategoryEntry("textiles", "Textiles", 280000),
    CategoryEntry("chemicals", "Chemicals", 180000),
    CategoryEntry("construction", "Construction", 150000),
    CategoryEntry("automotive", "Automotive", 120000),
    CategoryEntry("home & garden", "Home & Garden", 200000),
    CategoryEntry("sports", "Sports", 95000),
    CategoryEntry("fashion", "Fashion", 110000),
    CategoryEntry("food & beverage", "Food & Beverage", 85000)
  ]

  /** The ids of the table, in order. */
  function CategoryIds(): (ids: seq<string>)
    ensures |ids| == |Categories|
    ensures forall i :: 0 <= i < |ids| ==> ids[i] == Categories[i].id
  {
    seq(|Categories|, i requires 0 <= i < |Categories| => Categories[i].id)
  }

  /** The ids are pairwise distinct and "all" is one of them. */
  lemma CategoryIdsDistinct()
    ensures NoDuplicates(CategoryIds())
    ensures "all" in CategoryIds()
  {
    var ids := CategoryIds();
    assert ids == ["all", "electronics", "machinery", "textiles", "chemicals", "construction",
                   "automotive", "home & garden", "sports", "fashion", "food & beverage"];
    assert ids[0] == "all";
  }

  // ---------------------------------------------------------------------------
  // Count badges

  /** A number of tenths written with one decimal place, as `toFixed(1)` writes it. */
  function OneDecimal(tenths: nat): (r: string)
    ensures |r| >= 3 && r[|r| - 2] == '.'
    ensures IsDigits(r[..|r| - 2]) && '0' <= r[|r| - 1] <= '9'
  {
    var r := NatToString(tenths / 10) + "." + [DigitChar(tenths % 10)];
    assert r[..|r| - 2] == NatToString(tenths / 10);
    r
  }

  /** `formatCount`: millions with one decimal and "M" from 1000000 on, thousands with
      no decimal and "K" from 1000 on, the plain number below that. The scaled digits
      round half up on the exact quotient. */
  function FormatCount(count: int): (r: string)
    ensures |r| > 0
    ensures r[|r| - 1] == 'M' <==> count >= 1000000
    ensures r[|r| - 1] == 'K' <==> 1000 <= count < 1000000
  {
    if count >= 1000000 then OneDecimal((count + 50000) / 100000) + "M"
    else if count >= 1000 then NatToString((count + 500) / 1000) + "K"
    else IntToString(count)
  }

  /** Below 1000 a non-negative count is written as its own decimal digits and nothing else. */
  lemma FormatCountSmall(count: int)
    requires 0 <= count < 1000
    ensures IsDigits(FormatCount(count)) && |FormatCount(count)| <= 3
    ensures |FormatCount(count)| > 1 ==> FormatCount(count)[0] != '0'
    ensures DigitsValue(FormatCount(count)) == count
  {
    NatToStringRoundTrip(count);
    if count >= 10 {
      assert |NatToString(count / 10)| <= 2;
    }
  }

  /** The badge of "All Categories" (2500000) reads "2.5M". */
  lemma AllCategoriesBadge()
    ensures FormatCount(2500000) == "2.5M"
  {
  }

  /** The badge of "Electronics" (450000) reads "450K". */
  lemma ElectronicsBadge()
    ensures FormatCount(450000) == "450K"
  {
  }

  // ---------------------------------------------------------------------------
  // Panel state

  /** The slider's declared maximum. */
  const PriceMax := 10000

  /** The section flags the panel starts with. */
  const InitialSections: map<string, bool> := map[
    "categories" := true,
    "location" := true,
    "supplier" := true,
    "price" := true,
    "certifications" := false]

  /** How a section's flag reads in the markup: a missing key reads as collapsed. */
  predicate IsExpanded(sections: map<string, bool>, section: string)
  {
    section in sections && sections[section]
  }

  /** `{ ...prev, [section]: !prev[section] }`; on a missing key `!undefined` is `true`. */
  function ToggledSection(sections: map<string, bool>, section: string): (r: map<string, bool>)
    ensures r.Keys == sections.Keys + {section}
    ensures IsExpanded(r, section) == !IsExpanded(sections, section)
  {
    sections[section := !IsExpanded(sections, section)]
  }

  /** Toggling keeps every other key and flag. */
  lemma ToggledSectionFlipsOnlyIt(sections: map<string, bool>, section: string)
    ensures forall k :: k != section ==>
      (k in ToggledSection(sections, section) <==> k in sections)
      && IsExpanded(ToggledSection(sections, section), k) == IsExpanded(sections, k)
  {
  }

  /** Toggling a section that has a flag twice gives back the same map. */
  lemma ToggledSectionTwice(sections: map<string, bool>, section: string)
    requires section in sections
    ensures ToggledSection(ToggledSection(sections, section), section) == sections
  {
    var twice := ToggledSection(ToggledSection(sections, section), section);
    assert twice.Keys == sections.Keys;
    assert forall k :: k in sections ==> twice[k] == sections[k];
  }

  /** The panel starts with categories, location, supplier and price expanded and
      certifications collapsed. */
  lemma InitialExpansion()
    ensures IsExpanded(InitialSections, "categories") && IsExpanded(InitialSections, "location")
    ensures IsExpanded(InitialSections, "supplier") && IsExpanded(InitialSections, "price")
    ensures !IsExpanded(InitialSections, "certifications")
    ensures InitialSections.Keys == {"categories", "location", "supplier", "price", "certifications"}
  {
  }

  /** The component's state: the price range and the section flags. */
  class SearchFilters {
    var priceRange: seq<int>
    var expandedSections: map<string, bool>

    /** Every section the markup toggles keeps a flag. */
    ghost predicate Valid()
      reads this
    {
      |priceRange| == 2 && InitialSections.Keys <= expandedSections.Keys
    }

    /** `useState([0, 10000])` and the initial section flags. */
    constructor ()
      ensures Valid()
      ensures priceRange == [0, PriceMax] && priceRange[0] <= priceRange[1]
      ensures expandedSections == InitialSections
    {
      priceRange := [0, PriceMax];
      expandedSections := InitialSections;
    }

    /** `toggleSection(section)`, run by a click on a section header. */
    method ToggleSection(section: string)
      requires Valid()
      modifies this
      ensures Valid()
      ensures expandedSections == ToggledSection(old(expandedSections), section)
      ensures IsExpanded(expandedSections, section) == !old(IsExpanded(expandedSections, section))
      ensures priceRange == old(priceRange)
    {
      expandedSections := expandedSections[section := !IsExpanded(expandedSections, section)];
    }
  }
}

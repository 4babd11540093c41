# ShopEasy marketplace front end: the state and filtering layer

This project models the logic underneath the React front end of a B2B sourcing
marketplace. The front end has a product listing, a supplier directory, a filter
side panel, a messaging panel and the page that holds them together. All data is
static mock data. The logic is small and sequential:

- the query/category filter that decides which product cards appear;
- the heart buttons that toggle a product id in the `favorites` list;
- the query filter over supplier name, location and main products;
- the "first three plus `+n more`" main-product badges;
- the expanded/collapsed flags of the filter sections;
- the `formatCount` badge text;
- the table of category ids;
- the messaging panel's selected conversation and draft, with `sendMessage` and Enter-to-send;
- the page's tab, query, category and messaging-visible flag, with the button handlers.

Modules, one per source file, plus three helpers:

| module | file | models |
|---|---|---|
| `Wrappers` | wrappers.dfy | `Option`, standing in for `T \| null` |
| `Text` | text.dfy | `toLowerCase` (ASCII), `includes`, `trim`, `toString` |
| `Seqs` | seqs.dfy | `Array.prototype.filter` as a recursive function; subsequence and duplicate-freedom |
| `Listings` | listings.dfy | src/components/ProductListings.tsx |
| `Suppliers` | suppliers.dfy | src/components/SupplierProfiles.tsx |
| `Filters` | filters.dfy | src/components/SearchFilters.tsx |
| `Messaging` | messaging.dfy | src/components/MessagingPanel.tsx |
| `IndexPage` | index_page.dfy | src/pages/Index.tsx |

The pure parts are functions with lemmas. These are the filters, the badge
arithmetic, `formatCount`, the section toggle and the category table. Each
component's `useState` variables are the fields of a class. Each event handler is a
method that updates those fields:

- `Listings.ProductListings` holds `favorites`;
- `Filters.SearchFilters` holds `priceRange` and `expandedSections`;
- `Messaging.MessagingPanel` holds `selectedConversation` and `newMessage`;
- `IndexPage.Index` holds `activeTab`, `searchQuery`, `selectedCategory` and `showMessaging`,
  and the child components it has mounted. The products listing is mounted only on
  the products tab. The messaging panel is mounted only while it is shown. Unmounting
  a child discards its state. Mounting it again starts from the child's initial state.
  So leaving the products tab loses the favourites, and closing the messaging panel
  loses the selection and the draft.

A handler's `ensures` gives its whole new state in terms of the old state. The
lemmas about the pure functions then give the promised properties. Examples are
"no duplicates", "double toggle restores" and "only this flag changes".

Strings are `seq<char>`. `toLowerCase` is modelled on ASCII letters only. `trim`
strips exactly the characters ECMAScript classes as WhiteSpace or LineTerminator.

What the code does not do:

- `sendMessage` does not append the message to the thread. It only logs the draft
  and clears it.
- The filter panel does not clamp the price range. It hands the range to a slider
  component and sets whatever the slider reports.
- Favourites are a list, not a set. Toggling a present id removes every copy of it.
  Toggling an absent id appends it at the end. Toggling twice always restores the set
  of ids. It restores the list itself exactly when the id was absent, or occurred
  once, as the last element.

## Model

| member | source | states |
|---|---|---|
| `Text.Lower` | src/components/ProductListings.tsx:135-136 | lower-casing keeps the length and lowers each character on its own (ASCII letters only) |
| `Text.Contains` | src/components/ProductListings.tsx:135 | `s.includes(t)` can hold only when `t` is no longer than `s` |
| `Text.ContainsAtSomeIndex` | src/components/ProductListings.tsx:135-136 | `s.includes(t)` holds iff some window of `s` at some index equals `t` |
| `Text.TrimStart` | src/components/MessagingPanel.tsx:107 | the result is a suffix of the input, every removed character is whitespace, and the result does not start with whitespace |
| `Text.TrimEnd` | src/components/MessagingPanel.tsx:107 | the result is a prefix of the input, every removed character is whitespace, and the result does not end with whitespace |
| `Text.Trim` | src/components/MessagingPanel.tsx:107 | `trim` is no longer than its input, and a non-empty result starts and ends with a non-whitespace character |
| `Text.TrimStripsBlankEnds` | src/components/MessagingPanel.tsx:107 | the result of `trim` sits in its input with only whitespace before and after it |
| `Text.TrimEmptyIffBlank` | src/components/MessagingPanel.tsx:107 | the trimmed draft is empty iff every character of it is whitespace |
| `Text.NatToString` | src/components/SearchFilters.tsx:72 | `toString` of a natural is a non-empty run of decimal digits with no leading zero |
| `Text.NatToStringRoundTrip` | src/components/SearchFilters.tsx:72 | reading back the decimal digits `toString` writes gives the number |
| `Seqs.Filter` | src/components/ProductListings.tsx:133 | the filter result is an order-preserving subsequence of the input, no longer than it, and every element passes the test |
| `Seqs.FilterMembership` | src/components/ProductListings.tsx:133-139 | an element is in the result iff it is in the input and passes |
| `Seqs.FilterMultiplicity` | src/components/ProductListings.tsx:133-139 | a passing element occurs in the result exactly as often as in the input; a failing one never |
| `Seqs.FilterKeepsAll` | src/components/ProductListings.tsx:134-137 | when every element passes, the result is the input itself |
| `Seqs.FilterCongruent` | src/components/ProductListings.tsx:135-136 | two tests that agree on every element give the same result |
| `Seqs.FilterAppend` | src/components/ProductListings.tsx:144-145 | filtering `s + t` is filtering `s`, then `t`, and concatenating |
| `Seqs.SubsequenceMultiset` | src/components/ProductListings.tsx:133 | a subsequence holds each element at most as often as the whole (no duplication) |
| `Seqs.SubsequenceNoDuplicates` | src/components/ProductListings.tsx:144 | a subsequence of a duplicate-free list is duplicate-free |
| `Listings.FilteredProducts` | src/components/ProductListings.tsx:133-139 | the shown products are a subsequence of the catalog, and each passes the search test and the category test |
| `Listings.FilteredProductsOrderAndCount` | src/components/ProductListings.tsx:133 | the shown products keep catalog order, and none is shown more often than listed |
| `Listings.FilteredProductsExactly` | src/components/ProductListings.tsx:134-138 | a product is shown iff it is listed and passes both tests (the conjunction); a passing product keeps its multiplicity |
| `Listings.FilteredProductsMatchQuery` | src/components/ProductListings.tsx:134-136 | under a non-empty query, every shown product has the lowered query in its lowered name or lowered supplier name |
| `Listings.FilteredProductsMatchCategory` | src/components/ProductListings.tsx:137 | under a category other than "all", every shown product is in that category |
| `Listings.UnfilteredShowsAll` | src/components/ProductListings.tsx:134-137 | query `""` with category "all" shows the whole list, in order |
| `Listings.FilteredProductsCaseInsensitive` | src/components/ProductListings.tsx:135-136 | two queries with the same lowered form show the same products |
| `Listings.RenderProducts` | src/components/ProductListings.tsx:153-255 | the listing as evidently intended: the heading count equals the number of cards and of filtered products; "No products found" shows iff that count is 0; each card is its filtered product, heart filled iff favourited, verified badge iff the supplier is verified, and exactly the first min(2, n) specifications |
| `Listings.RenderProductsAsWritten` | src/components/ProductListings.tsx:247-255 | the listing as written: rendering fails exactly when no product passes the filter, and otherwise gives the intended listing, with at least one card |
| `Listings.UnlistedCategoryShowsNothing` | src/components/ProductListings.tsx:137 | a category other than "all" that no listed product has selects nothing |
| `Listings.ChemicalsListingFails` | src/components/ProductListings.tsx:247-255 | with category "chemicals" the listing as written fails for every query, where the intended one shows the notice |
| `Listings.Toggled` | src/components/ProductListings.tsx:142-146 | after a toggle the id is present iff it was absent before; the list grows by at most one |
| `Listings.ToggledMembership` | src/components/ProductListings.tsx:142-146 | toggling removes every occurrence of a present id and adds an absent one; no other id is added or removed |
| `Listings.ToggledNoDuplicates` | src/components/ProductListings.tsx:143-145 | toggling keeps the favourites free of duplicates |
| `Listings.ToggledTwice` | src/components/ProductListings.tsx:142-146 | toggling the same id twice restores the set of ids; it restores the very list iff the id was absent, or occurred once, as the last element |
| `Listings.RemoveThenAppend` | src/components/ProductListings.tsx:143-145 | removing every copy of a present id and appending one gives back the list iff the id occurred once, as the last element |
| `Listings.RemoveThenAppendRestores` | src/components/ProductListings.tsx:143-145 | a list whose only copy of the id is its last element comes back after a double toggle |
| `Listings.ClicksKeepNoDuplicates` | src/components/ProductListings.tsx:32 | from any duplicate-free list, the initial empty one included, any run of heart clicks leaves no duplicates |
| `Listings.ProductListings.constructor` | src/components/ProductListings.tsx:32 | favourites start empty |
| `Listings.ProductListings.ToggleFavorite` | src/components/ProductListings.tsx:141-147 | the new list is the toggled old list, the heart of that product flips, and duplicate-freedom is kept |
| `Suppliers.FilteredSuppliers` | src/components/SupplierProfiles.tsx:136-143 | the shown suppliers are a subsequence of the list, each matching the query |
| `Suppliers.FilteredSuppliersOrderAndCount` | src/components/SupplierProfiles.tsx:136 | the shown suppliers keep list order and none is repeated beyond its listing |
| `Suppliers.FilteredSuppliersExactly` | src/components/SupplierProfiles.tsx:137-142 | a supplier is shown iff it is listed and the query is empty, or the lowered query is in its lowered name, location or some main product |
| `Suppliers.EmptyQueryShowsAll` | src/components/SupplierProfiles.tsx:137 | the empty query shows every supplier, in order |
| `Suppliers.FilteredSuppliersCaseInsensitive` | src/components/SupplierProfiles.tsx:138-141 | queries that differ only in ASCII letter case show the same suppliers |
| `Suppliers.MainProductBadges` | src/components/SupplierProfiles.tsx:239-248 | the first min(3, n) main products are shown, in order, and a "+(n-3) more" badge appears iff n > 3; shown plus hidden is n |
| `Suppliers.MoreLabel` | src/components/SupplierProfiles.tsx:246 | the extra badge reads "+", then the decimal digits of the hidden count with no leading zero, then " more" |
| `Suppliers.DirectoryShowsNoMoreBadge` | src/components/SupplierProfiles.tsx:239-248 | every listed supplier has three main products, so each card shows all of them and no "+n more" badge |
| `Suppliers.RenderSuppliers` | src/components/SupplierProfiles.tsx:149-286 | the heading count equals the number of cards and of filtered suppliers; "No suppliers found" shows iff it is 0; each card carries its supplier's badges |
| `Filters.CategoryIdsDistinct` | src/components/SearchFilters.tsx:25-37 | the category ids are pairwise distinct and include "all" |
| `Filters.OneDecimal` | src/components/SearchFilters.tsx:70 | a tenths count is written as digits, a point and one digit |
| `Filters.FormatCount` | src/components/SearchFilters.tsx:69-73 | the text ends in "M" iff the count is at least 1000000, and in "K" iff it is in [1000, 1000000) |
| `Filters.FormatCountSmall` | src/components/SearchFilters.tsx:72 | a count in [0, 1000) is written as at most three decimal digits, with no leading zero, that denote the count |
| `Filters.AllCategoriesBadge` | src/components/SearchFilters.tsx:26 | the "All Categories" badge reads "2.5M" |
| `Filters.ElectronicsBadge` | src/components/SearchFilters.tsx:27 | the "Electronics" badge reads "450K" |
| `Filters.ToggledSection` | src/components/SearchFilters.tsx:63-66 | toggling negates the section's flag, reading a missing key as collapsed, and adds no key besides the section |
| `Filters.ToggledSectionFlipsOnlyIt` | src/components/SearchFilters.tsx:62-67 | toggling keeps every other key and its flag |
| `Filters.ToggledSectionTwice` | src/components/SearchFilters.tsx:65 | toggling a section that has a flag twice restores the map |
| `Filters.InitialExpansion` | src/components/SearchFilters.tsx:17-23 | categories, location, supplier and price start expanded, certifications collapsed |
| `Filters.SearchFilters.constructor` | src/components/SearchFilters.tsx:16-23 | the price range starts at [0, 10000], low ≤ high, high the slider's declared max; the flags start as listed |
| `Filters.SearchFilters.ToggleSection` | src/components/SearchFilters.tsx:62-67 | the new map is the toggled old map, the section's flag flips, and the price range is untouched |
| `Messaging.CanSend` | src/components/MessagingPanel.tsx:107 | the send guard passes iff the draft is not all whitespace; its negation is the button's `disabled` flag |
| `Messaging.DraftAfterSend` | src/components/MessagingPanel.tsx:106-111 | sending clears a draft that is not all whitespace and leaves a blank one unchanged |
| `Messaging.SendDisabledIffNoOp` | src/components/MessagingPanel.tsx:258 | the send button is disabled iff sending would leave the draft as it is |
| `Messaging.UnreadBadge` | src/components/MessagingPanel.tsx:167-171 | the unread badge appears iff the unread count is positive, and shows that count |
| `Messaging.RowsOpenChat` | src/components/MessagingPanel.tsx:36-73 | every conversation row has a non-empty id, so clicking any row opens the chat view |
| `Messaging.MessagingPanel.View` | src/components/MessagingPanel.tsx:134-215 | the chat view shows iff the selection is truthy (neither null nor ""); the list shows the three conversations; the chat shows the fixed thread |
| `Messaging.MessagingPanel.constructor` | src/components/MessagingPanel.tsx:33-34 | conversation "1" starts selected with an empty draft, so the chat view shows |
| `Messaging.MessagingPanel.EditDraft` | src/components/MessagingPanel.tsx:252 | typing sets the draft and nothing else |
| `Messaging.MessagingPanel.SendMessage` | src/components/MessagingPanel.tsx:106-111 | a non-blank draft is logged and cleared, and a blank one is kept and nothing is logged; the selection never changes and no message is appended |
| `Messaging.MessagingPanel.HandleKeyPress` | src/components/MessagingPanel.tsx:113-118 | Enter without Shift prevents the default and sends, logging exactly the old draft when it is not blank; any other key leaves all state unchanged and logs nothing |
| `Messaging.MessagingPanel.SelectConversation` | src/components/MessagingPanel.tsx:142 | a row click selects that id; the chat view shows iff the id is not "" |
| `Messaging.MessagingPanel.Back` | src/components/MessagingPanel.tsx:185 | the back arrow clears the selection, which shows the conversation list, and keeps the draft |
| `IndexPage.MainListings` | src/pages/Index.tsx:165-170 | on either tab exactly one listing renders: the products listing gets query and category, the supplier listing the query only |
| `IndexPage.HeroBadgeCategory` | src/pages/Index.tsx:119-124 | a hero badge selects its name lower-cased, which is a known category id |
| `IndexPage.HeroBadgesLowerToIds` | src/pages/Index.tsx:27-30 | each of the six shown badge names lowers to the id in the matching row of the filter panel's table |
| `IndexPage.FirstLoadShowsWholeCatalog` | src/pages/Index.tsx:15-17 | in the initial state the products listing shows the whole catalog, in order |
| `IndexPage.Index.constructor` | src/pages/Index.tsx:15-18 | the page starts on "products" with query `""`, category "all" and messaging hidden; a products listing is mounted with empty favourites, no messaging panel |
| `IndexPage.Index.ClickProductsTab` | src/pages/Index.tsx:48 | the tab becomes "products"; coming from suppliers mounts a new products listing with empty favourites, staying keeps the listing; query, category and messaging are untouched |
| `IndexPage.Index.ClickSuppliersTab` | src/pages/Index.tsx:58-169 | the tab becomes "suppliers" and the products listing is unmounted, discarding its favourites; query, category and messaging are untouched |
| `IndexPage.Index.EditSearch` | src/pages/Index.tsx:107 | typing sets the query and nothing else; the mounted children stay |
| `IndexPage.Index.ToggleMessaging` | src/pages/Index.tsx:74-178 | the Messages button negates the messaging flag; opening mounts a new panel with conversation "1" and an empty draft, closing unmounts it and discards both |
| `IndexPage.Index.ClickHeroBadge` | src/pages/Index.tsx:124 | a hero badge sets the category to its lowered name and keeps it a known id |
| `IndexPage.Index.ChooseCategory` | src/pages/Index.tsx:157-160 | a row of the filter panel's table sets the category to that row's id |

## Left out

- Rendering: JSX layout, styling, icons, images, avatars and the UI library components. The model keeps only the counts, flags and badge lists the markup derives from state.
- `Text.Lower`: lowers only ASCII 'A'..'Z'. JavaScript's `toLowerCase` also lowers non-ASCII letters, and a few of them change length. The catalog and supplier data are all ASCII, but the query is typed by the user. So the model differs from the source for non-ASCII queries whose lower-case form contains ASCII letters. For example, the Kelvin sign U+212A lowers to "k" in JavaScript, so that query matches the kitchen and solar products in the source and nothing in the model.
- `Filters.FormatCount`: the branch and the "M"/"K" suffix are exact. The digits before the suffix use round-half-up on the exact quotient. The source divides in IEEE doubles and rounds with `toFixed`, which can differ at a tie in the millions branch.
- `Filters.FormatCount` takes integers only. The source's counts are all integers.
- Slider behaviour: the slider's clamping and its step of 100 live in a library component this model does not include. Only the initial range `[0, 10000]` and the declared max are modelled.
- `console.log` in `sendMessage` is output. It is modelled as the value `SendMessage` returns, not as I/O.
- Controls with no wired state have no behaviour to model: the "Sort by" selects, the facet checkboxes, "Clear All Filters", the conversation search box and the fixed chat header.
- Message appending, unread clearing and supplier replies: the code has none of them.
- React scheduling and batching: each handler is modelled as one immediate state update.
- `IndexPage.Index`: `setActiveTab` is modelled through its two callers, the two tab buttons. `onCategoryChange` is modelled through its callers, by table row and hero-badge index.
- The catalog and supplier list are kept as constants. No concrete query over them is proved (for example "led" selects one product). Such proofs are too costly for the solver.

## Findings

| source | as written | input that shows it | evidently intended | confidence | as-written member | corrected member |
|---|---|---|---|---|---|---|
| src/components/ProductListings.tsx:247-255 | the empty-result branch renders a `Package` icon, but line 3 imports only Star, MapPin, MessageCircle, Heart and ExternalLink, so an empty result throws instead of showing the notice | category "chemicals" (hero badge "Chemicals" on the products tab) with any query; also any query no product matches | the "No products found" notice with its icon, shown iff no product passes the filter | not executed; high, the identifier is unbound in that module | `Listings.RenderProductsAsWritten`, `Listings.ChemicalsListingFails` | `Listings.RenderProducts` |

Nothing in the page catches this render error, so in the source it unmounts the whole page. The page's transitions (`IndexPage.Index`) are modelled as if rendering always succeeds, which matches the intended listing.

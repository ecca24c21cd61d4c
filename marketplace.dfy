/** The energy-solutions marketplace (src/pages/Marketplace.tsx): the catalogue,
    category filtering and the three sort orders, currency abbreviation, the product
    card's add-to-cart rules, and the page's append-only cart. */
module Marketplace {
  import opened Common
  import opened StableSort

  datatype Category = Hardware | Software | Service | Credits

  /** The category's id as the page compares it with the selected filter. */
  function CategoryId(c: Category): string
  {
    match c
    case Hardware => "hardware"
    case Software => "software"
    case Service => "service"
    case Credits => "credits"
  }

  /** One catalogue entry (`MarketplaceItem`); the rating is kept in tenths of a
      star and the picture and description, which only decorate the card, are left
      out. */
  datatype Item = Item(
    id: string,
    name: string,
    category: Category,
    price: real,
    ratingTenths: int,
    reviews: int,
    features: seq<string>,
    savings: real,
    paybackPeriod: real,
    carbonReduction: real,
    vendor: string,
    inStock: bool,
    trending: bool)

  /** `MOCK_MARKETPLACE_ITEMS` (lines 29-138). */
  const Catalogue: seq<Item> := [
    Item("1", "AI-Powered Smart Grid Controller", Hardware, 15999.0, 48, 247,
         ["Real-time load balancing", "Predictive maintenance", "Grid stability optimization", "99.9% uptime"],
         125000.0, 1.2, 2500.0, "GridTech Solutions", true, true),
    Item("2", "Carbon Credit Portfolio - Verified", Credits, 45.0, 49, 1847,
         ["Verified by Gold Standard", "Immediate delivery", "Blockchain tracked", "ESG compliant"],
         0.0, 0.0, 1.0, "CarbonZero Exchange", true, false),
    Item("3", "Energy Analytics Pro Suite", Software, 2999.0, 47, 892,
         ["Multi-sector analytics", "Custom dashboards", "API integration", "24/7 support"],
         45000.0, 0.8, 850.0, "EnergyAI Corp", true, true),
    Item("4", "Industrial IoT Sensor Network", Hardware, 8499.0, 46, 456,
         ["100+ sensors included", "Wireless mesh network", "Real-time monitoring", "5-year warranty"],
         75000.0, 1.4, 1200.0, "IndustrialIoT Inc", true, false),
    Item("5", "ESG Compliance Consulting", Service, 12500.0, 49, 234,
         ["ESG assessment", "Compliance roadmap", "Report generation", "Ongoing support"],
         0.0, 0.0, 0.0, "Sustainability Partners", true, true),
    Item("6", "Smart Building Automation Kit", Hardware, 5999.0, 45, 678,
         ["HVAC control", "Lighting automation", "Occupancy sensing", "Mobile app"],
         35000.0, 2.1, 650.0, "SmartBuild Tech", false, false)
  ]

  /** The catalogue's ids are pairwise distinct, so the cart's ids name items
      unambiguously. */
  lemma CatalogueIdsDistinct()
    ensures forall i, j :: 0 <= i < j < |Catalogue| ==> Catalogue[i].id != Catalogue[j].id
  {
    assert forall i :: 0 <= i < |Catalogue| ==> |Catalogue[i].id| == 1;
    assert Catalogue[0].id[0] == '1' && Catalogue[1].id[0] == '2' && Catalogue[2].id[0] == '3';
    assert Catalogue[3].id[0] == '4' && Catalogue[4].id[0] == '5' && Catalogue[5].id[0] == '6';
  }

  /** The filter value that keeps every item. */
  const AllCategories: string := "all"

  /** One category filter button: its id and its caption (`CATEGORIES`, lines 140-146). */
  datatype CategoryFilter = CategoryFilter(id: string, caption: string)

  const CategoryFilters: seq<CategoryFilter> := [
    CategoryFilter(AllCategories, "All Products"),
    CategoryFilter(CategoryId(Hardware), "Hardware"),
    CategoryFilter(CategoryId(Software), "Software"),
    CategoryFilter(CategoryId(Service), "Services"),
    CategoryFilter(CategoryId(Credits), "Carbon Credits")
  ]

  /** The filter predicate of lines 275-277. */
  predicate Keeps(selected: string, item: Item)
  {
    selected == AllCategories || CategoryId(item.category) == selected
  }

  /** `items.filter(...)`: `"all"` keeps everything; any other value keeps exactly
      the items of that category (none, for a value that is no category's id),
      each as often as it occurs. */
  function FilterCategory(items: seq<Item>, selected: string): (r: seq<Item>)
    ensures selected == AllCategories ==> r == items
    ensures forall x :: multiset(r)[x] == if Keeps(selected, x) then multiset(items)[x] else 0
    ensures forall i :: 0 <= i < |r| ==> Keeps(selected, r[i])
  {
    if items == [] then []
    else
      assert items == [items[0]] + items[1..];
      var rest := FilterCategory(items[1..], selected);
      if Keeps(selected, items[0]) then [items[0]] + rest else rest
  }

  /** The filter keeps catalogue order: filtering a concatenation filters each
      part and concatenates the results. */
  lemma {:induction false} FilterCategoryAppend(a: seq<Item>, b: seq<Item>, selected: string)
    ensures FilterCategory(a + b, selected) == FilterCategory(a, selected) + FilterCategory(b, selected)
  {
    if a != [] {
      assert (a + b)[0] == a[0];
      assert (a + b)[1..] == a[1..] + b;
      FilterCategoryAppend(a[1..], b, selected);
    } else {
      assert a + b == b;
    }
  }

  /** One item is kept exactly when the predicate holds; with `FilterCategoryAppend`
      this pins the result down to the kept items in their input order. */
  lemma FilterCategorySingle(x: Item, selected: string)
    ensures FilterCategory([x], selected) == if Keeps(selected, x) then [x] else []
  {
    assert [x][1..] == [];
  }

  /** The four category ids differ from each other and from "all". */
  lemma CategoryIdsDistinct(c: Category, d: Category)
    ensures CategoryId(c) != AllCategories
    ensures c != d ==> CategoryId(c) != CategoryId(d)
  {
    var h, w, v, r := CategoryId(Hardware), CategoryId(Software), CategoryId(Service), CategoryId(Credits);
    assert |AllCategories| == 3 && |h| == 8 && |w| == 8 && |v| == 7 && |r| == 7;
    assert h[0] == 'h' && w[0] == 's' && v[1] == 'e' && r[1] == 'r';
  }

  /** The position of a category's button in `CategoryFilters`. */
  function FilterIndex(c: Category): (i: int)
    ensures 1 <= i < |CategoryFilters| && CategoryFilters[i].id == CategoryId(c)
  {
    match c
    case Hardware => 1
    case Software => 2
    case Service => 3
    case Credits => 4
  }

  /** The category of the button at position `i` after "all". */
  function FilterAt(i: int): (c: Category)
    requires 1 <= i < |CategoryFilters|
    ensures FilterIndex(c) == i
  {
    if i == 1 then Hardware else if i == 2 then Software else if i == 3 then Service else Credits
  }

  /** The category buttons: "all" first, then one button per category in a fixed
      order, so each button selects a filter the page understands and no two select
      the same one. */
  lemma CategoryFiltersCoverCategories()
    ensures |CategoryFilters| == 5 && CategoryFilters[0].id == AllCategories
    ensures forall i :: 1 <= i < |CategoryFilters| ==> CategoryFilters[i].id == CategoryId(FilterAt(i))
    ensures forall i, j :: 0 <= i < j < |CategoryFilters| ==> CategoryFilters[i].id != CategoryFilters[j].id
  {
    forall i, j | 0 <= i < j < |CategoryFilters|
      ensures CategoryFilters[i].id != CategoryFilters[j].id
    {
      var c := FilterAt(j);
      if i == 0 {
        CategoryIdsDistinct(c, c);
      } else {
        CategoryIdsDistinct(c, FilterAt(i));
      }
    }
  }

  datatype SortBy = Price | Rating | Savings

  /** The comparator of lines 278-285, `a` before `b` when negative: ascending price,
      descending rating, descending savings. The rating difference is taken in
      tenths and scaled back to stars. */
  function Compare(sortBy: SortBy, a: Item, b: Item): real
  {
    match sortBy
    case Price => a.price - b.price
    case Rating => (b.ratingTenths - a.ratingTenths) as real / 10.0
    case Savings => b.savings - a.savings
  }

  /** A key whose differences have the comparator's sign: sorting ascending by it
      is sorting by the comparator. */
  function SortKey(sortBy: SortBy): Item -> real
  {
    match sortBy
    case Price => (x: Item) => x.price
    case Rating => (x: Item) => -(x.ratingTenths as real) / 10.0
    case Savings => (x: Item) => -x.savings
  }

  /** The comparator is exactly the difference of the keys, so it is consistent in
      the sense of ECMA-262 and the stable sort of the key is the sort it defines. */
  lemma CompareIsKeyDifference(sortBy: SortBy, a: Item, b: Item)
    ensures Compare(sortBy, a, b) == SortKey(sortBy)(a) - SortKey(sortBy)(b)
  {
  }

  /** `a` may precede `b` in the chosen order: the comparator does not put them
      the other way round, and the order's own field agrees. */
  predicate InOrder(sortBy: SortBy, a: Item, b: Item)
  {
    && Compare(sortBy, a, b) <= 0.0
    && (sortBy == Price ==> a.price <= b.price)
    && (sortBy == Rating ==> a.ratingTenths >= b.ratingTenths)
    && (sortBy == Savings ==> a.savings >= b.savings)
  }

  /** Ascending keys are the chosen order. */
  lemma KeyOrderIsInOrder(sortBy: SortBy, a: Item, b: Item)
    requires SortKey(sortBy)(a) <= SortKey(sortBy)(b)
    ensures InOrder(sortBy, a, b)
  {
    match sortBy
    case Price =>
    case Rating =>
      assert -(a.ratingTenths as real) / 10.0 <= -(b.ratingTenths as real) / 10.0;
    case Savings =>
  }

  /** `filteredItems` (lines 274-286): a reordering of the filtered items that the
      comparator never finds out of order. */
  function FilteredItems(items: seq<Item>, selected: string, sortBy: SortBy): (r: seq<Item>)
    ensures multiset(r) == multiset(FilterCategory(items, selected))
    ensures forall i, j :: 0 <= i < j < |r| ==> Compare(sortBy, r[i], r[j]) <= 0.0
    ensures sortBy == Price ==> forall i, j :: 0 <= i < j < |r| ==> r[i].price <= r[j].price
    ensures sortBy == Rating ==> forall i, j :: 0 <= i < j < |r| ==> r[i].ratingTenths >= r[j].ratingTenths
    ensures sortBy == Savings ==> forall i, j :: 0 <= i < j < |r| ==> r[i].savings >= r[j].savings
  {
    var r := Sort(FilterCategory(items, selected), SortKey(sortBy));
    assert forall i, j :: 0 <= i < j < |r| ==> InOrder(sortBy, r[i], r[j]) by {
      forall i, j | 0 <= i < j < |r|
        ensures InOrder(sortBy, r[i], r[j])
      {
        KeyOrderIsInOrder(sortBy, r[i], r[j]);
      }
    }
    r
  }

  /** Items the comparator ties keep their catalogue order (the sort is stable). */
  lemma FilteredItemsStable(items: seq<Item>, selected: string, sortBy: SortBy, v: real)
    ensures WithKey(FilteredItems(items, selected, sortBy), SortKey(sortBy), v) ==
            WithKey(FilterCategory(items, selected), SortKey(sortBy), v)
  {
    SortIsStable(FilterCategory(items, selected), SortKey(sortBy), v);
  }

  /** Any ordering of the filtered items that the comparator accepts and that keeps
      tied items in catalogue order is the one shown: the display order is fully
      determined by ECMA-262's requirements. */
  lemma FilteredItemsDetermined(items: seq<Item>, selected: string, sortBy: SortBy, r: seq<Item>)
    requires forall i, j :: 0 <= i < j < |r| ==> Compare(sortBy, r[i], r[j]) <= 0.0
    requires forall v :: WithKey(r, SortKey(sortBy), v) ==
                         WithKey(FilterCategory(items, selected), SortKey(sortBy), v)
    ensures r == FilteredItems(items, selected, sortBy)
  {
    assert SortedBy(r, SortKey(sortBy)) by {
      forall i, j | 0 <= i < j < |r|
        ensures SortKey(sortBy)(r[i]) <= SortKey(sortBy)(r[j])
      {
        CompareIsKeyDifference(sortBy, r[i], r[j]);
      }
    }
    SortedStableIsUnique(FilterCategory(items, selected), r, SortKey(sortBy));
  }

  // ---------------------------------------------------------------------------
  // Currency abbreviation (`formatCurrency`, lines 148-152).
  // ---------------------------------------------------------------------------

  datatype Tier = Millions | Thousands | Units

  /** A formatted amount: `"$"`, the tier's number and the tier's suffix. `amount`
      counts display units: tenths of a million for `Millions`, tenths of a thousand
      for `Thousands` (one decimal, `toFixed(1)`), whole dollars for `Units`
      (`toFixed(0)`). */
  datatype Abbreviated = Abbreviated(tier: Tier, amount: int)

  const CurrencySign: string := "$"

  function Suffix(t: Tier): string
  {
    match t
    case Millions => "M"
    case Thousands => "K"
    case Units => ""
  }

  /** The dollar value of one display unit of the tier. */
  function UnitValue(t: Tier): real
  {
    match t
    case Millions => 100000.0
    case Thousands => 100.0
    case Units => 1.0
  }

  /** The dollar value the text shows. */
  function Shown(a: Abbreviated): real
  {
    a.amount as real * UnitValue(a.tier)
  }

  /** `toFixed` on an exact value: the nearest integer, a tie going away from zero
      (the larger magnitude, with the sign written separately). */
  function RoundHalfAway(y: real): (n: int)
    ensures y - 0.5 <= n as real <= y + 0.5
    ensures y >= 0.0 ==> y - 0.5 < n as real
    ensures y < 0.0 ==> (n as real) < y + 0.5
  {
    if y >= 0.0 then (y + 0.5).Floor else -((-y + 0.5).Floor)
  }

  /** The shown value is the true value rounded to the tier's display unit. */
  predicate NearestInTier(a: Abbreviated, value: real)
  {
    value - UnitValue(a.tier) / 2.0 <= Shown(a) <= value + UnitValue(a.tier) / 2.0
  }

  /** `formatCurrency` as written: the tier is chosen on the unrounded value, then
      the scaled value is rounded. */
  function FormatCurrencyAsWritten(value: real): (a: Abbreviated)
    ensures a.tier == Millions <==> value >= 1000000.0
    ensures a.tier == Thousands <==> 1000.0 <= value < 1000000.0
    ensures a.tier == Units <==> value < 1000.0
    ensures Suffix(a.tier) == (if value >= 1000000.0 then "M" else if value >= 1000.0 then "K" else "")
    ensures NearestInTier(a, value)
  {
    if value >= 1000000.0 then Abbreviated(Millions, RoundHalfAway(value / 100000.0))
    else if value >= 1000.0 then Abbreviated(Thousands, RoundHalfAway(value / 100.0))
    else Abbreviated(Units, RoundHalfAway(value))
  }

  /** The discrepancy: just under a tier boundary the rounding carries the number up
      to the next tier's size, so 999999 shows as "$1000.0K" and 999.6 as "$1000". */
  lemma AsWrittenOverflowsTier(value: real)
    ensures 999950.0 <= value < 1000000.0 ==> FormatCurrencyAsWritten(value) == Abbreviated(Thousands, 10000)
    ensures 999.5 <= value < 1000.0 ==> FormatCurrencyAsWritten(value) == Abbreviated(Units, 1000)
  {
  }

  /** The character of one decimal digit. */
  function DigitChar(d: int): (c: char)
    requires 0 <= d < 10
    ensures '0' <= c <= '9' && c as int - '0' as int == d
  {
    (d + '0' as int) as char
  }

  /** The decimal numeral of `n`, without leading zeros. */
  function Digits(n: nat): (s: string)
    ensures |s| >= 1 && (|s| > 1 ==> s[0] != '0')
    ensures forall i :: 0 <= i < |s| ==> '0' <= s[i] <= '9'
  {
    if n < 10 then [DigitChar(n)] else Digits(n / 10) + [DigitChar(n % 10)]
  }

  /** The value of a numeral (the reading direction of `Digits`). */
  function NumeralValue(s: string): int
  {
    if s == [] then 0 else 10 * NumeralValue(s[..|s| - 1]) + (s[|s| - 1] as int - '0' as int)
  }

  /** Reading back a numeral gives the number written. */
  lemma {:induction false} DigitsRoundTrip(n: nat)
    ensures NumeralValue(Digits(n)) == n
  {
    if n >= 10 {
      DigitsRoundTrip(n / 10);
      var s := Digits(n);
      assert s[..|s| - 1] == Digits(n / 10);
    }
  }

  /** `toFixed(0)` of a whole number and `toFixed(1)` of a number of tenths. */
  function FixedText(amount: int, decimals: nat): string
    requires decimals <= 1
  {
    var sign := if amount < 0 then "-" else "";
    var magnitude := if amount < 0 then -amount else amount;
    if decimals == 0 then sign + Digits(magnitude)
    else sign + Digits(magnitude / 10) + "." + [DigitChar(magnitude % 10)]
  }

  /** The text `formatCurrency` returns: `$`, the number with one decimal in the
      thousands and millions tiers and none below, and the tier's suffix. */
  function CurrencyText(a: Abbreviated): (t: string)
    ensures |t| >= 2 && t[..1] == CurrencySign
    ensures t[|t| - |Suffix(a.tier)|..] == Suffix(a.tier)
  {
    var t := CurrencySign + FixedText(a.amount, if a.tier == Units then 0 else 1) + Suffix(a.tier);
    assert t[..1] == CurrencySign;
    t
  }

  /** The two overflowing bands read "$1000.0K" and "$1000". */
  lemma AsWrittenOverflowText(value: real)
    ensures 999950.0 <= value < 1000000.0 ==> CurrencyText(FormatCurrencyAsWritten(value)) == "$1000.0K"
    ensures 999.5 <= value < 1000.0 ==> CurrencyText(FormatCurrencyAsWritten(value)) == "$1000"
  {
    AsWrittenOverflowsTier(value);
    ThousandText();
  }

  /** The texts of the two overflowing values. */
  lemma ThousandText()
    ensures CurrencyText(Abbreviated(Thousands, 10000)) == "$1000.0K"
    ensures CurrencyText(Abbreviated(Units, 1000)) == "$1000"
  {
    var zero := DigitChar(0);
    assert zero == '0';
    assert Digits(1) == "1";
    assert Digits(10) == Digits(1) + [zero];
    assert Digits(100) == Digits(10) + [zero];
    assert Digits(1000) == Digits(100) + [zero];
    assert Digits(1000) == "1000";
    assert FixedText(10000, 1) == "1000.0";
    assert FixedText(1000, 0) == "1000";
  }

  /** The number shown in a tier stays below the next tier's size, and a non-units
      tier shows at least 1.0. */
  predicate WithinTier(a: Abbreviated)
  {
    match a.tier
    case Millions => a.amount >= 10
    case Thousands => 10 <= a.amount < 10000
    case Units => a.amount < 1000
  }

  /** `formatCurrency` with the tier chosen on the rounded value: the value shown is
      still the nearest in its tier, and never reads "1000.0K" or "1000". */
  function FormatCurrency(value: real): (a: Abbreviated)
    ensures NearestInTier(a, value)
    ensures WithinTier(a)
    ensures a.tier == Millions <==> value >= 999950.0
    ensures a.tier == Thousands <==> 999.5 <= value < 999950.0
  {
    var thousands := RoundHalfAway(value / 100.0);
    var units := RoundHalfAway(value);
    if thousands >= 10000 then Abbreviated(Millions, RoundHalfAway(value / 100000.0))
    else if units >= 1000 then Abbreviated(Thousands, thousands)
    else Abbreviated(Units, units)
  }

  /** Away from the two boundary bands the correction changes nothing. */
  lemma FormatCurrencyAgreesOffBoundary(value: real)
    requires value < 999.5 || 1000.0 <= value < 999950.0 || value >= 1000000.0
    ensures FormatCurrency(value) == FormatCurrencyAsWritten(value)
  {
  }

  /** The as-written tiers always satisfy `WithinTier` off the boundary bands, and
      violate it inside them. */
  lemma AsWrittenWithinTierIff(value: real)
    ensures WithinTier(FormatCurrencyAsWritten(value)) <==>
            !(999.5 <= value < 1000.0 || 999950.0 <= value < 1000000.0)
  {
    if value < 999.5 || 1000.0 <= value < 999950.0 || value >= 1000000.0 {
      FormatCurrencyAgreesOffBoundary(value);
    } else {
      AsWrittenOverflowsTier(value);
    }
  }

  // ---------------------------------------------------------------------------
  // The product card (`ProductCard`, lines 175-262).
  // ---------------------------------------------------------------------------

  const AddedText: string := "Added"
  const AddText: string := "Add to Cart"
  const OutOfStockText: string := "Out of Stock"

  /** What a card shows and allows. */
  datatype CardView = CardView(
    addEnabled: bool,
    buttonText: string,
    price: Abbreviated,
    savingsPanel: Option<Abbreviated>,
    carbonPanel: Option<real>,
    features: seq<Entry<string>>,
    trendingBadge: bool,
    outOfStockOverlay: bool)

  function ProductCard(item: Item, isItemInCart: bool): (c: CardView)
    ensures c.addEnabled <==> item.inStock && !isItemInCart
    ensures c.buttonText == (if isItemInCart then AddedText else if item.inStock then AddText else OutOfStockText)
    ensures c.price == FormatCurrencyAsWritten(item.price)
    ensures c.savingsPanel.Some? <==> item.savings > 0.0
    ensures c.savingsPanel.Some? ==> c.savingsPanel.value == FormatCurrencyAsWritten(item.savings)
    ensures c.carbonPanel.Some? <==> item.carbonReduction > 0.0
    ensures c.carbonPanel.Some? ==> c.carbonPanel.value == item.carbonReduction
    ensures |c.features| == (if |item.features| < 2 then |item.features| else 2)
    ensures forall i :: 0 <= i < |c.features| ==> c.features[i] == Entry(i, item.features[i])
    ensures c.trendingBadge <==> item.trending
    ensures c.outOfStockOverlay <==> !item.inStock
  {
    var shown := if |item.features| < 2 then item.features else item.features[..2];
    CardView(
      item.inStock && !isItemInCart,
      if isItemInCart then AddedText else if item.inStock then AddText else OutOfStockText,
      FormatCurrencyAsWritten(item.price),
      if item.savings > 0.0 then Some(FormatCurrencyAsWritten(item.savings)) else None,
      if item.carbonReduction > 0.0 then Some(item.carbonReduction) else None,
      Listing(shown),
      item.trending,
      !item.inStock)
  }

  /** The button is enabled exactly when it reads "Add to Cart"; "Added" wins over
      "Out of Stock". */
  lemma EnabledIffAddText(item: Item, isItemInCart: bool)
    ensures ProductCard(item, isItemInCart).addEnabled <==> ProductCard(item, isItemInCart).buttonText == AddText
    ensures isItemInCart ==> ProductCard(item, isItemInCart).buttonText == AddedText
  {
    assert |AddedText| == 5 && |AddText| == 11 && |OutOfStockText| == 12;
  }

  /** The page's state (lines 270-272). */
  class MarketplacePage {
    var selectedCategory: string
    var sortBy: SortBy
    var cart: seq<string>

    constructor ()
      ensures selectedCategory == AllCategories && sortBy == Rating && cart == []
    {
      selectedCategory := AllCategories;
      sortBy := Rating;
      cart := [];
    }

    /** `cartItemSet` (line 292): the ids in the cart. */
    function CartItemSet(): (ids: set<string>)
      reads this
      ensures forall id :: id in ids <==> id in cart
    {
      set id | id in cart
    }

    /** The grid's contents (lines 274-286, 360-367): the selected category's items,
        in the selected order, ties in catalogue order. */
    function ShownItems(): (items: seq<Item>)
      reads this
      ensures multiset(items) == multiset(FilterCategory(Catalogue, selectedCategory))
      ensures forall i, j :: 0 <= i < j < |items| ==> Compare(sortBy, items[i], items[j]) <= 0.0
      ensures forall v :: WithKey(items, SortKey(sortBy), v) == WithKey(FilterCategory(Catalogue, selectedCategory), SortKey(sortBy), v)
    {
      var items := FilteredItems(Catalogue, selectedCategory, sortBy);
      assert forall v :: WithKey(items, SortKey(sortBy), v) == WithKey(FilterCategory(Catalogue, selectedCategory), SortKey(sortBy), v) by {
        forall v
          ensures WithKey(items, SortKey(sortBy), v) == WithKey(FilterCategory(Catalogue, selectedCategory), SortKey(sortBy), v)
        {
          FilteredItemsStable(Catalogue, selectedCategory, sortBy, v);
        }
      }
      items
    }

    /** The card of one item, told whether its id is in the cart (line 365). */
    function CardOf(item: Item): (c: CardView)
      reads this
      ensures c.addEnabled <==> item.inStock && item.id !in cart
    {
      ProductCard(item, item.id in CartItemSet())
    }

    /** A category button (line 321). */
    method SelectCategory(id: string)
      modifies this`selectedCategory
      ensures selectedCategory == id
    {
      selectedCategory := id;
    }

    /** The sort selector (line 333). */
    method SelectSort(order: SortBy)
      modifies this`sortBy
      ensures sortBy == order
    {
      sortBy := order;
    }

    /** `addToCart` (lines 288-290): appends, whatever is already in the cart. */
    method AddToCart(itemId: string)
      modifies this`cart
      ensures cart == old(cart) + [itemId]
    {
      cart := cart + [itemId];
    }

    /** A click on a card's button: only an enabled button calls `addToCart`, so the
        cart never gains an id that is already in it. */
    method ClickAdd(item: Item) returns (added: bool)
      modifies this`cart
      ensures added <==> old(CardOf(item)).addEnabled
      ensures cart == if added then old(cart) + [item.id] else old(cart)
      ensures (forall i, j :: 0 <= i < j < |old(cart)| ==> old(cart)[i] != old(cart)[j]) ==>
              (forall i, j :: 0 <= i < j < |cart| ==> cart[i] != cart[j])
    {
      added := CardOf(item).addEnabled;
      if added {
        AddToCart(item.id);
      }
    }
  }
}

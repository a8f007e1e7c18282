/** The market price page: its fixed price list, the case-insensitive search, and the trend badge. */
module MarketPrice {
  import opened Text
  import opened Seqs

  datatype PriceEntry = PriceEntry(
    id: nat, cropName: string, state: string, price: real, unit: string,
    rangeMin: real, rangeMax: real, trend: string, market: string, latestDate: string, icon: string)

  /** The price list the page starts with. */
  const MockPrices: seq<PriceEntry> := [
    PriceEntry(1, "Tomato", "Karnataka", 2000.0, "Quintal", 1500.0, 2500.0, "increasing", "Bangalore APMC", "2025-10-11", "\U{1F345}"),
    PriceEntry(2, "Onion", "Maharashtra", 1800.0, "Quintal", 1600.0, 2200.0, "decreasing", "Nashik Mandi", "2025-10-11", "\U{1F9C5}"),
    PriceEntry(3, "Potato", "Uttar Pradesh", 1200.0, "Quintal", 1000.0, 1500.0, "stable", "Agra Bazaar", "2025-10-10", "\U{1F954}"),
    PriceEntry(4, "Corn", "Bihar", 2500.0, "Quintal", 2300.0, 2800.0, "increasing", "Patna Market", "2025-10-10", "\U{1F33D}"),
    PriceEntry(5, "Garlic", "Gujarat", 6000.0, "Quintal", 5500.0, 7000.0, "increasing", "Rajkot APMC", "2025-10-11", "\U{1F9C4}"),
    PriceEntry(6, "Ginger", "Kerala", 4500.0, "Quintal", 4000.0, 5000.0, "decreasing", "Kochi Mandi", "2025-10-10", "\U{1FADA}"),
    PriceEntry(7, "Wheat", "Punjab", 2200.0, "Quintal", 2000.0, 2400.0, "stable", "Amritsar Market", "2025-10-11", "\U{1F33E}"),
    PriceEntry(8, "Rice", "Andhra Pradesh", 3000.0, "Quintal", 2800.0, 3200.0, "increasing", "Guntur Bazzar", "2025-10-11", "\U{1F35A}")
  ]

  /** Ids tell entries apart, and each price lies within its day's range. */
  predicate WellFormedPrices(prices: seq<PriceEntry>) {
    && (forall i, j :: 0 <= i < j < |prices| ==> prices[i].id != prices[j].id)
    && (forall i :: 0 <= i < |prices| ==> prices[i].rangeMin <= prices[i].price <= prices[i].rangeMax)
  }

  lemma MockPricesWellFormed()
    ensures WellFormedPrices(MockPrices)
  {
  }

  /** The entry mentions the (already lower-cased) search text in its crop, state or market. */
  predicate Mentions(needle: string, e: PriceEntry) {
    Contains(ToLower(e.cropName), needle) || Contains(ToLower(e.state), needle) || Contains(ToLower(e.market), needle)
  }

  function MentionsTerm(needle: string): PriceEntry -> bool {
    e => Mentions(needle, e)
  }

  /** `filteredPrices`: everything for an empty term, else the entries that mention it, ignoring case. */
  function FilterPrices(prices: seq<PriceEntry>, term: string): (r: seq<PriceEntry>)
    ensures term == "" ==> r == prices
    ensures |r| <= |prices|
  {
    if term == "" then prices else Filter(prices, MentionsTerm(ToLower(term)))
  }

  /** A non-empty term keeps exactly the entries that mention it, ignoring case. */
  lemma SearchMembership(prices: seq<PriceEntry>, term: string, e: PriceEntry)
    requires term != ""
    ensures e in FilterPrices(prices, term) <==> e in prices && Mentions(ToLower(term), e)
  {
    FilterMembership(prices, MentionsTerm(ToLower(term)), e);
  }

  /** Every entry shown mentions the term. */
  lemma SearchResultsMention(prices: seq<PriceEntry>, term: string)
    requires term != ""
    ensures forall i :: 0 <= i < |FilterPrices(prices, term)| ==> Mentions(ToLower(term), FilterPrices(prices, term)[i])
  {
    FilterAllKept(prices, MentionsTerm(ToLower(term)));
  }

  /** The result keeps the page's order and only drops entries. */
  lemma SearchIsSubList(prices: seq<PriceEntry>, term: string)
    ensures IsSubsequence(FilterPrices(prices, term), prices)
  {
    if term == "" {
      SubsequenceOfItself(prices);
    } else {
      FilterIsSubsequence(prices, MentionsTerm(ToLower(term)));
    }
  }

  /** Terms that differ only in letter case give the same result. */
  lemma SearchIgnoresCase(prices: seq<PriceEntry>, a: string, b: string)
    requires ToLower(a) == ToLower(b)
    ensures FilterPrices(prices, a) == FilterPrices(prices, b)
  {
    assert |a| == |ToLower(a)| == |ToLower(b)| == |b|;
  }

  /** In particular, upper-casing the whole term does not change what is found. */
  lemma SearchUpperCaseTerm(prices: seq<PriceEntry>, term: string)
    ensures FilterPrices(prices, ToUpper(term)) == FilterPrices(prices, term)
  {
    LowerOfUpper(term);
    SearchIgnoresCase(prices, ToUpper(term), term);
  }

  /** The trend badge: its CSS class and its icon. */
  datatype TrendStyle = TrendStyle(cssClass: string, icon: string)

  function Trend(trend: string): (t: TrendStyle)
    ensures trend == "increasing" ==> t == TrendStyle("increasing", "\U{1F4C8}")
    ensures trend == "decreasing" ==> t == TrendStyle("decreasing", "\U{1F4C9}")
    ensures trend != "increasing" && trend != "decreasing" ==> t == TrendStyle("stable", "➡️")
  {
    if trend == "increasing" then TrendStyle("increasing", "\U{1F4C8}")
    else if trend == "decreasing" then TrendStyle("decreasing", "\U{1F4C9}")
    else TrendStyle("stable", "➡️")
  }

  /** The class is always one of the three styles, and it equals the trend whenever the trend is a known one. */
  lemma TrendClassIsKnown(trend: string)
    ensures Trend(trend).cssClass in {"increasing", "decreasing", "stable"}
    ensures trend in {"increasing", "decreasing", "stable"} ==> Trend(trend).cssClass == trend
  {
  }
}

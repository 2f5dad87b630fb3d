/** The catalog page (app/AllApps/page.tsx): the faceted filter over the
    fetched apps, its two choice parsers, the de-duplicated option lists, and the
    page state that the dropdown and "Clear All Filters" handlers update. */
module Catalog {
  import opened Wrappers
  import opened Text
  import opened Seqs

  /** An app document as the page reads it. `Tags` and `CompatibleAssets` may
      be missing from a stored document; prices are whole numbers here. */
  datatype App = App(
    id: string,
    appName: string,
    tags: Option<seq<string>>,
    price: int,
    averageRating: real,
    developerId: string,
    compatibleAssets: Option<seq<string>>)

  /** The six facet selections; the empty string means the facet is not set. */
  datatype Facets = Facets(
    category: string,
    developer: string,
    compatibleAsset: string,
    capability: string,
    rating: string,
    priceRange: string)

  const NoFacets := Facets("", "", "", "", "", "")

  /** The six dropdown menus of the sidebar. */
  datatype DropdownKey = CategoryMenu | DeveloperMenu | CompatibleAssetsMenu | CapabilityMenu | RatingMenu | PriceMenu

  const RatingOptions: seq<string> := ["4+ Stars", "3+ Stars", "2+ Stars", "1+ Stars", "All Ratings"]
  const PriceRanges: seq<string> := ["Free", "$1 - $50", "$51 - $100", "$101 - $250", "$251 - $500", "$500+"]

  // ---------------------------------------------------------------------
  // One predicate per facet

  /** Case-insensitive search on the app name only. */
  predicate MatchesSearch(app: App, query: string) {
    Includes(Lower(app.appName), Lower(query))
  }

  /** `!selected || list?.includes(selected)`: a missing list fails a set facet. */
  predicate MatchesListFacet(list: Option<seq<string>>, selected: string) {
    selected == "" || (list.Some? && selected in list.value)
  }

  predicate MatchesDeveloper(app: App, selected: string) {
    selected == "" || app.developerId == selected
  }

  /** `getRatingMatch`: "All Ratings" accepts everything; otherwise the text
      before the first '+' is read with `parseInt` and the rating must reach it
      (a comparison with NaN is false). So "All Ratings" accepts every
      rating and "N+ Stars" exactly the ratings of at least N. */
  function RatingMatch(rating: real, choice: string): (r: bool)
    ensures choice == "All Ratings" ==> r
    ensures forall n: nat :: choice == NatToString(n) + "+ Stars" ==> (r <==> rating >= n as real)
  {
    StarsLabelsParse();
    if choice == "All Ratings" then true
    else
      match ParseInt(Split(choice, "+")[0])
      case None => false
      case Some(min) => rating >= min as real
  }

  /** `price >= bound` and `price <= bound` where a NaN bound makes them false. */
  predicate AtLeast(price: int, bound: Option<int>) {
    bound.Some? && price >= bound.value
  }

  predicate AtMost(price: int, bound: Option<int>) {
    bound.Some? && price <= bound.value
  }

  /** The bracket test shared by both versions of `getPriceMatch`, once the
      dollar signs have been dealt with: split on " - " and read both ends with
      `parseInt`; a missing second part is `undefined`, which compares false. */
  predicate InBracket(price: int, stripped: string) {
    var parts := Split(stripped, " - ");
    AtLeast(price, ParseInt(parts[0])) &&
    AtMost(price, if |parts| > 1 then ParseInt(parts[1]) else None)
  }

  /** `getPriceMatch` as written: `replace('$', '')` removes only the first
      dollar sign, so the upper bound of "$1 - $50" is `parseInt("$50")`, and
      every bounded label "$a - $b" accepts no price at all. */
  function PriceMatch(price: int, choice: string): (r: bool)
    ensures choice == "Free" ==> (r <==> price == 0)
    ensures choice == "$500+" ==> (r <==> price > 500)
    ensures forall lo: nat, hi: nat :: choice == BracketLabel(lo, hi) ==> !r
  {
    OnceStrippedBracketsReject(price);
    if choice == "Free" then price == 0
    else if choice == "$500+" then price > 500
    else InBracket(price, ReplaceFirst(choice, "$", ""))
  }

  /** `getPriceMatch` as evidently intended: every dollar sign removed, so
      a bounded label "$a - $b" accepts exactly the prices from a to b. */
  function IntendedPriceMatch(price: int, choice: string): (r: bool)
    ensures choice == "Free" ==> (r <==> price == 0)
    ensures choice == "$500+" ==> (r <==> price > 500)
    ensures forall lo: nat, hi: nat :: choice == BracketLabel(lo, hi) ==> (r <==> lo <= price <= hi)
  {
    FullyStrippedBracketsMeaning(price);
    if choice == "Free" then price == 0
    else if choice == "$500+" then price > 500
    else InBracket(price, RemoveAll(choice, '$'))
  }

  /** The conjunction of all six facets, with a given price matcher: an app
      passes only if it matches the search and every facet that is set, and
      with no facet set the search alone decides. The capability selection
      takes no part in it. */
  function MatchesAll(app: App, query: string, f: Facets, priceMatch: (int, string) -> bool): (r: bool)
    ensures r ==> MatchesSearch(app, query)
    ensures r && f.category != "" ==> app.tags.Some? && f.category in app.tags.value
    ensures r && f.developer != "" ==> app.developerId == f.developer
    ensures r && f.compatibleAsset != "" ==>
      app.compatibleAssets.Some? && f.compatibleAsset in app.compatibleAssets.value
    ensures r && f.rating != "" ==> RatingMatch(app.averageRating, f.rating)
    ensures r && f.priceRange != "" ==> priceMatch(app.price, f.priceRange)
    ensures f.category == "" && f.developer == "" && f.compatibleAsset == "" && f.rating == "" && f.priceRange == "" ==>
      (r <==> MatchesSearch(app, query))
    ensures MatchesSearch(app, query)
         && (f.category == "" || (app.tags.Some? && f.category in app.tags.value))
         && (f.developer == "" || app.developerId == f.developer)
         && (f.compatibleAsset == "" || (app.compatibleAssets.Some? && f.compatibleAsset in app.compatibleAssets.value))
         && (f.rating == "" || RatingMatch(app.averageRating, f.rating))
         && (f.priceRange == "" || priceMatch(app.price, f.priceRange))
         ==> r
  {
    && MatchesSearch(app, query)
    && MatchesListFacet(app.tags, f.category)
    && MatchesDeveloper(app, f.developer)
    && MatchesListFacet(app.compatibleAssets, f.compatibleAsset)
    && (f.rating == "" || RatingMatch(app.averageRating, f.rating))
    && (f.priceRange == "" || priceMatch(app.price, f.priceRange))
  }

  // ---------------------------------------------------------------------
  // The composite filter

  /** The message of the error the page's filter throws: `getRatingMatch` and
      `getPriceMatch` are `const`s declared after `filteredApps`, so calling
      them from its callback reads them before initialisation. */
  function UninitialisedHelper(f: Facets): string {
    if f.rating != "" then "ReferenceError: Cannot access 'getRatingMatch' before initialization"
    else "ReferenceError: Cannot access 'getPriceMatch' before initialization"
  }

  /** `filteredApps` as the page evaluates it. The callback evaluates every
      conjunct, so on the first app a set rating or price facet reaches a helper
      that is not yet initialised and the whole filter throws. Otherwise the
      result is the order-preserving selection of the apps that pass search,
      category, developer and compatible-asset facets. */
  function FilteredAppsAsWritten(apps: seq<App>, query: string, f: Facets): (r: Result<seq<App>>)
    ensures r.Failure? <==> |apps| > 0 && (f.rating != "" || f.priceRange != "")
    ensures r.Success? ==> IsSubsequence(r.value, apps)
    ensures r.Success? ==> forall a :: a in r.value <==>
      && a in apps
      && MatchesSearch(a, query)
      && MatchesListFacet(a.tags, f.category)
      && MatchesDeveloper(a, f.developer)
      && MatchesListFacet(a.compatibleAssets, f.compatibleAsset)
  {
    if |apps| > 0 && (f.rating != "" || f.priceRange != "") then Failure(UninitialisedHelper(f))
    else Success(Filter(apps, a => MatchesAll(a, query, f, PriceMatch)))
  }

  /** The composite filter with the helpers declared before use and the
      intended price parser: an order-preserving selection of exactly the
      apps that pass all six facets. */
  function FilterApps(apps: seq<App>, query: string, f: Facets): (r: seq<App>)
    ensures IsSubsequence(r, apps)
    ensures forall a :: a in r <==> a in apps && MatchesAll(a, query, f, IntendedPriceMatch)
    ensures forall a :: multiset(r)[a] == if MatchesAll(a, query, f, IntendedPriceMatch) then multiset(apps)[a] else 0
  {
    Filter(apps, a => MatchesAll(a, query, f, IntendedPriceMatch))
  }

  /** Only the app name is searched. */
  function SearchOnly(apps: seq<App>, query: string): (r: seq<App>)
    ensures IsSubsequence(r, apps)
    ensures forall a :: a in r <==> a in apps && Includes(Lower(a.appName), Lower(query))
    ensures forall a :: multiset(r)[a] == if Includes(Lower(a.appName), Lower(query)) then multiset(apps)[a] else 0
  {
    Filter(apps, a => MatchesSearch(a, query))
  }

  /** With an empty query and no facet set, nothing is filtered out. */
  lemma NothingSelectedKeepsAll(apps: seq<App>)
    ensures FilteredAppsAsWritten(apps, "", NoFacets) == Success(apps)
    ensures FilterApps(apps, "", NoFacets) == apps
  {
    forall a | a in apps
      ensures MatchesAll(a, "", NoFacets, PriceMatch) && MatchesAll(a, "", NoFacets, IntendedPriceMatch)
    {
      IncludesEmpty(Lower(a.appName));
    }
    FilterKeepsAll(apps, a => MatchesAll(a, "", NoFacets, PriceMatch));
    FilterKeepsAll(apps, a => MatchesAll(a, "", NoFacets, IntendedPriceMatch));
  }

  /** With no facet set, the page's filter is the search on its own. */
  lemma NoFacetsIsSearchOnly(apps: seq<App>, query: string)
    ensures FilteredAppsAsWritten(apps, query, NoFacets) == Success(SearchOnly(apps, query))
  {
    FilterCongruent(apps, a => MatchesAll(a, query, NoFacets, PriceMatch), a => MatchesSearch(a, query));
  }

  /** The capability selection never changes the result, in either version. */
  lemma CapabilityIgnored(apps: seq<App>, query: string, f: Facets, capability: string)
    ensures FilteredAppsAsWritten(apps, query, f.(capability := capability)) == FilteredAppsAsWritten(apps, query, f)
    ensures FilterApps(apps, query, f.(capability := capability)) == FilterApps(apps, query, f)
  {
    var g := f.(capability := capability);
    FilterCongruent(apps, a => MatchesAll(a, query, g, PriceMatch), a => MatchesAll(a, query, f, PriceMatch));
    FilterCongruent(apps, a => MatchesAll(a, query, g, IntendedPriceMatch), a => MatchesAll(a, query, f, IntendedPriceMatch));
  }

  /** Whenever the page's filter does return a list, it is the corrected filter's list. */
  lemma AsWrittenAgreesWhenItReturns(apps: seq<App>, query: string, f: Facets)
    requires FilteredAppsAsWritten(apps, query, f).Success?
    ensures FilteredAppsAsWritten(apps, query, f).value == FilterApps(apps, query, f)
  {
    FilterCongruent(apps, a => MatchesAll(a, query, f, PriceMatch), a => MatchesAll(a, query, f, IntendedPriceMatch));
  }

  // ---------------------------------------------------------------------
  // What the rating and price labels mean

  /** "N+ Stars" is not "All Ratings", and the text before its '+' reads back as N. */
  lemma StarsLabelParses(n: nat)
    ensures NatToString(n) + "+ Stars" != "All Ratings"
    ensures ParseInt(Split(NatToString(n) + "+ Stars", "+")[0]) == Some(n)
  {
    var choice := NatToString(n) + "+ Stars";
    assert choice[0] != 'A';
    assert choice == NatToString(n) + "+" + " Stars";
    SplitAfterPrefix(NatToString(n), "+", " Stars");
    ParseIntOfNatToString(n, []);
    assert NatToString(n) + [] == NatToString(n);
  }

  lemma StarsLabelsParse()
    ensures forall n: nat ::
      (NatToString(n) + "+ Stars" != "All Ratings" &&
       ParseInt(Split(NatToString(n) + "+ Stars", "+")[0]) == Some(n))
  {
    forall n: nat
      ensures NatToString(n) + "+ Stars" != "All Ratings" &&
        ParseInt(Split(NatToString(n) + "+ Stars", "+")[0]) == Some(n)
    {
      StarsLabelParses(n);
    }
  }

  /** The rating options of the sidebar, one by one. */
  lemma RatingOptionsMeaning(rating: real)
    ensures RatingMatch(rating, RatingOptions[4])
    ensures RatingMatch(rating, RatingOptions[0]) <==> rating >= 4.0
    ensures RatingMatch(rating, RatingOptions[1]) <==> rating >= 3.0
    ensures RatingMatch(rating, RatingOptions[2]) <==> rating >= 2.0
    ensures RatingMatch(rating, RatingOptions[3]) <==> rating >= 1.0
  {
    assert NatToString(4) == "4" && NatToString(3) == "3" && NatToString(2) == "2" && NatToString(1) == "1";
    assert RatingOptions[0] == NatToString(4) + "+ Stars";
    assert RatingOptions[1] == NatToString(3) + "+ Stars";
    assert RatingOptions[2] == NatToString(2) + "+ Stars";
    assert RatingOptions[3] == NatToString(1) + "+ Stars";
  }

  /** With only "N+ Stars" chosen, the corrected filter keeps, in order and
      as often as they occur, exactly the apps that match the search and are
      rated at least N. */
  lemma RatingFacetKeeps(apps: seq<App>, query: string, n: nat)
    ensures FilterApps(apps, query, NoFacets.(rating := NatToString(n) + "+ Stars"))
         == Filter(apps, a => MatchesSearch(a, query) && a.averageRating >= n as real)
  {
    var f := NoFacets.(rating := NatToString(n) + "+ Stars");
    FilterCongruent(apps, a => MatchesAll(a, query, f, IntendedPriceMatch),
                    a => MatchesSearch(a, query) && a.averageRating >= n as real);
  }

  /** A bounded price label "$a - $b". */
  function BracketLabel(lo: nat, hi: nat): string {
    "$" + NatToString(lo) + " - $" + NatToString(hi)
  }

  lemma NoSpaceInDigits(d: string)
    requires AllDigits(d)
    ensures forall j :: 0 <= j < |d| ==> d[j] != " - "[0]
  {
  }

  /** A bracket label is neither of the two labels tested before it. */
  lemma BracketLabelIsBounded(lo: nat, hi: nat)
    ensures BracketLabel(lo, hi) != "Free" && BracketLabel(lo, hi) != "$500+"
    ensures BracketLabel(lo, hi) == "$" + (NatToString(lo) + " - " + ("$" + NatToString(hi)))
    ensures BracketLabel(lo, hi) == ("$" + NatToString(lo) + " - ") + ("$" + NatToString(hi))
  {
    var a, b := NatToString(lo), NatToString(hi);
    var choice := BracketLabel(lo, hi);
    assert choice == "$" + a + " - $" + b;
    assert |choice| == |a| + |b| + 5 >= 7;
    assert choice[0] == '$';
    AppendAssoc("$", a, " - $" + b);
    AppendAssoc("$" + a, " - ", "$" + b);
    AppendAssoc(" - ", "$", b);
    assert " - $" == " - " + "$";
  }

  /** The pieces of "a - $b" around the first " - ". */
  lemma SplitBracketBody(lo: nat, hi: nat)
    ensures Split(NatToString(lo) + " - " + ("$" + NatToString(hi)), " - ") == [NatToString(lo), "$" + NatToString(hi)]
  {
    var a, b := NatToString(lo), NatToString(hi);
    NoSpaceInDigits(a);
    SplitAfterPrefix(a, " - ", "$" + b);
    var upper := "$" + b;
    forall j | 0 <= j < |upper|
      ensures upper[j] != " - "[0]
    {
      if j > 0 { assert upper[j] == b[j - 1]; }
    }
    SplitWithoutSeparator(upper, " - ");
  }

  /** With only its first dollar sign removed, a bounded label still carries
      one on its upper bound, which reads as NaN, so no price is in it. */
  lemma OnceStrippedBracketRejects(lo: nat, hi: nat, price: int)
    ensures BracketLabel(lo, hi) != "Free" && BracketLabel(lo, hi) != "$500+"
    ensures !InBracket(price, ReplaceFirst(BracketLabel(lo, hi), "$", ""))
  {
    var a, b := NatToString(lo), NatToString(hi);
    BracketLabelIsBounded(lo, hi);
    ReplaceLeading("$", a + " - " + ("$" + b), "");
    assert ReplaceFirst(BracketLabel(lo, hi), "$", "") == a + " - " + ("$" + b);
    SplitBracketBody(lo, hi);
    ParseIntNaN("$" + b);
    assert !InBracket(price, a + " - " + ("$" + b));
  }

  lemma OnceStrippedBracketsReject(price: int)
    ensures forall lo: nat, hi: nat ::
      (BracketLabel(lo, hi) != "Free" && BracketLabel(lo, hi) != "$500+" &&
       !InBracket(price, ReplaceFirst(BracketLabel(lo, hi), "$", "")))
  {
    forall lo: nat, hi: nat
      ensures BracketLabel(lo, hi) != "Free" && BracketLabel(lo, hi) != "$500+" &&
        !InBracket(price, ReplaceFirst(BracketLabel(lo, hi), "$", ""))
    {
      OnceStrippedBracketRejects(lo, hi, price);
    }
  }

  /** Removing every dollar sign from "$a - $b" leaves "a - b". */
  lemma StripAllDollars(lo: nat, hi: nat)
    ensures RemoveAll(BracketLabel(lo, hi), '$') == NatToString(lo) + " - " + NatToString(hi)
  {
    var a, b := NatToString(lo), NatToString(hi);
    assert '$' !in a && '$' !in b;
    StripDollarsAround(a, b);
  }

  lemma StripDollarsAround(a: string, b: string)
    requires '$' !in a && '$' !in b
    ensures RemoveAll("$" + a + " - $" + b, '$') == a + " - " + b
  {
    var dollar, dash := "$", " - ";
    assert " - $" == dash + dollar;
    assert RemoveAll(dollar, '$') == [];
    assert '$' !in dash;
    RemoveAllAbsent(dash, '$');
    RemoveAllAbsent(a, '$');
    RemoveAllAbsent(b, '$');
    var first := dollar + a;
    RemoveAllAppend(dollar, a, '$');
    assert RemoveAll(first, '$') == a;
    var middle := dash + dollar;
    RemoveAllAppend(dash, dollar, '$');
    assert RemoveAll(middle, '$') == dash;
    RemoveAllAppend(first, middle, '$');
    RemoveAllAppend(first + middle, b, '$');
    assert "$" + a + " - $" + b == (first + middle) + b;
  }

  /** Two digit strings joined by " - " split back into the two. */
  lemma SplitDigitPair(a: string, b: string)
    requires AllDigits(a) && AllDigits(b)
    ensures Split(a + " - " + b, " - ") == [a, b]
  {
    NoSpaceInDigits(a);
    NoSpaceInDigits(b);
    SplitAfterPrefix(a, " - ", b);
    SplitWithoutSeparator(b, " - ");
  }

  /** The two ends of "a - b" around its " - ", each read back as its number. */
  lemma FullyStrippedBracketParts(lo: nat, hi: nat)
    ensures Split(RemoveAll(BracketLabel(lo, hi), '$'), " - ") == [NatToString(lo), NatToString(hi)]
    ensures ParseInt(NatToString(lo)) == Some(lo) && ParseInt(NatToString(hi)) == Some(hi)
  {
    StripAllDollars(lo, hi);
    SplitDigitPair(NatToString(lo), NatToString(hi));
    ParseIntOfNatToString(lo, []);
    ParseIntOfNatToString(hi, []);
    assert NatToString(lo) + [] == NatToString(lo) && NatToString(hi) + [] == NatToString(hi);
  }

  /** With every dollar sign removed, "$a - $b" holds exactly the prices from a to b. */
  lemma FullyStrippedBracketMeaning(lo: nat, hi: nat, price: int)
    ensures BracketLabel(lo, hi) != "Free" && BracketLabel(lo, hi) != "$500+"
    ensures InBracket(price, RemoveAll(BracketLabel(lo, hi), '$')) <==> lo <= price <= hi
  {
    BracketLabelIsBounded(lo, hi);
    FullyStrippedBracketParts(lo, hi);
  }

  lemma FullyStrippedBracketsMeaning(price: int)
    ensures forall lo: nat, hi: nat ::
      (BracketLabel(lo, hi) != "Free" && BracketLabel(lo, hi) != "$500+" &&
       (InBracket(price, RemoveAll(BracketLabel(lo, hi), '$')) <==> lo <= price <= hi))
  {
    forall lo: nat, hi: nat
      ensures BracketLabel(lo, hi) != "Free" && BracketLabel(lo, hi) != "$500+" &&
        (InBracket(price, RemoveAll(BracketLabel(lo, hi), '$')) <==> lo <= price <= hi)
    {
      FullyStrippedBracketMeaning(lo, hi, price);
    }
  }

  /** With only the bracket "$lo - $hi" chosen, the corrected filter keeps, in
      order and as often as they occur, exactly the apps that match the search
      and cost from lo to hi. */
  lemma PriceFacetKeeps(apps: seq<App>, query: string, lo: nat, hi: nat)
    ensures FilterApps(apps, query, NoFacets.(priceRange := BracketLabel(lo, hi)))
         == Filter(apps, a => MatchesSearch(a, query) && lo <= a.price <= hi)
  {
    var f := NoFacets.(priceRange := BracketLabel(lo, hi));
    FilterCongruent(apps, a => MatchesAll(a, query, f, IntendedPriceMatch),
                    a => MatchesSearch(a, query) && lo <= a.price <= hi);
  }

  // The four bounded options of the sidebar are bracket labels.

  lemma FirstBracket()
    ensures PriceRanges[1] == BracketLabel(1, 50)
  {
    assert NatToString(5) == "5";
    assert NatToString(50) == "50";
    assert NatToString(1) == "1";
  }

  lemma SecondBracket()
    ensures PriceRanges[2] == BracketLabel(51, 100)
  {
    assert NatToString(5) == "5";
    assert NatToString(51) == "51";
    assert NatToString(10) == "10";
    assert NatToString(100) == "100";
  }

  lemma ThirdBracket()
    ensures PriceRanges[3] == BracketLabel(101, 250)
  {
    assert NatToString(10) == "10";
    assert NatToString(101) == "101";
    assert NatToString(25) == "25";
    assert NatToString(250) == "250";
  }

  lemma FourthBracket()
    ensures PriceRanges[4] == BracketLabel(251, 500)
  {
    assert NatToString(25) == "25";
    assert NatToString(251) == "251";
    assert NatToString(50) == "50";
    assert NatToString(500) == "500";
  }

  /** The price options of the sidebar as the page evaluates them: "Free" and
      "$500+" work, every bounded bracket accepts nothing. */
  lemma PriceRangesAsWritten(price: int)
    ensures PriceMatch(price, PriceRanges[0]) <==> price == 0
    ensures PriceMatch(price, PriceRanges[5]) <==> price > 500
    ensures !PriceMatch(price, PriceRanges[1]) && !PriceMatch(price, PriceRanges[2])
    ensures !PriceMatch(price, PriceRanges[3]) && !PriceMatch(price, PriceRanges[4])
  {
    FirstBracket();
    SecondBracket();
    ThirdBracket();
    FourthBracket();
  }

  /** The same options with the intended parser: each bracket is closed at both ends. */
  lemma PriceRangesIntended(price: int)
    ensures IntendedPriceMatch(price, PriceRanges[0]) <==> price == 0
    ensures IntendedPriceMatch(price, PriceRanges[1]) <==> 1 <= price <= 50
    ensures IntendedPriceMatch(price, PriceRanges[2]) <==> 51 <= price <= 100
    ensures IntendedPriceMatch(price, PriceRanges[3]) <==> 101 <= price <= 250
    ensures IntendedPriceMatch(price, PriceRanges[4]) <==> 251 <= price <= 500
    ensures IntendedPriceMatch(price, PriceRanges[5]) <==> price > 500
  {
    FirstBracket();
    SecondBracket();
    ThirdBracket();
    FourthBracket();
  }

  // ---------------------------------------------------------------------
  // The two findings, on concrete inputs

  /** A $25 app is in the "$1 - $50" bracket, yet the page's parser rejects it. */
  lemma PriceBracketWitness()
    ensures !PriceMatch(25, PriceRanges[1])
    ensures IntendedPriceMatch(25, PriceRanges[1])
  {
    PriceRangesAsWritten(25);
    PriceRangesIntended(25);
  }

  const RoboPlan := App("roboplan", "RoboPlan", Some(["Robotics"]), 0, 4.5, "omni", Some([]))
  const Qcai := App("qcai", "QCAI", Some(["AI/ML"]), 120, 3.0, "omni", None)

  /** Two apps, rated 4.5 (free) and 3.0 (priced 120): with "4+ Stars" the
      corrected filter keeps the first only, while the page's own filter throws. */
  lemma RatingScenario()
    ensures FilterApps([RoboPlan, Qcai], "", NoFacets.(rating := "4+ Stars")) == [RoboPlan]
    ensures FilteredAppsAsWritten([RoboPlan, Qcai], "", NoFacets.(rating := "4+ Stars")).Failure?
  {
    var f := NoFacets.(rating := "4+ Stars");
    IncludesEmpty(Lower(RoboPlan.appName));
    RatingOptionsMeaning(4.5);
    RatingOptionsMeaning(3.0);
    assert MatchesAll(RoboPlan, "", f, IntendedPriceMatch);
    assert !MatchesAll(Qcai, "", f, IntendedPriceMatch);
    var p := a => MatchesAll(a, "", f, IntendedPriceMatch);
    assert [RoboPlan, Qcai][1..] == [Qcai];
    assert Filter([Qcai], p) == [];
    assert Filter([RoboPlan, Qcai], p) == [RoboPlan] + Filter([Qcai], p);
  }

  lemma OutsideSecondBracket()
    ensures !IntendedPriceMatch(RoboPlan.price, "$51 - $100")
    ensures !IntendedPriceMatch(Qcai.price, "$51 - $100")
  {
    assert "$51 - $100" == PriceRanges[2];
    PriceRangesIntended(RoboPlan.price);
    PriceRangesIntended(Qcai.price);
  }

  /** The same two apps with "$51 - $100": neither is in the bracket, and the
      page's own filter throws. */
  lemma PriceScenario()
    ensures FilterApps([RoboPlan, Qcai], "", NoFacets.(priceRange := "$51 - $100")) == []
    ensures FilteredAppsAsWritten([RoboPlan, Qcai], "", NoFacets.(priceRange := "$51 - $100")).Failure?
  {
    var f := NoFacets.(priceRange := "$51 - $100");
    OutsideSecondBracket();
    FilterKeepsNone([RoboPlan, Qcai], a => MatchesAll(a, "", f, IntendedPriceMatch));
  }

  // ---------------------------------------------------------------------
  // Option lists built from the fetched apps

  /** `[...new Set(apps.map(app => app.DeveloperID))]`: every developer of
      some app, once each, in order of first appearance. */
  function DeveloperOptions(apps: seq<App>): (r: seq<string>)
    ensures NoDuplicates(r)
    ensures forall d :: d in r <==> exists a :: a in apps && a.developerId == d
  {
    var ids := seq(|apps|, i requires 0 <= i < |apps| => apps[i].developerId);
    assert forall a :: a in apps ==> a.developerId in ids by {
      forall a | a in apps ensures a.developerId in ids {
        var i :| 0 <= i < |apps| && apps[i] == a;
        assert ids[i] == a.developerId;
      }
    }
    Dedup(ids)
  }

  /** `[...new Set(apps.flatMap(app => app.CompatibleAssets || []))]`: every
      compatible asset named by some app, once each; an app without the list
      contributes nothing. */
  function CompatibleAssetOptions(apps: seq<App>): (r: seq<string>)
    ensures NoDuplicates(r)
    ensures forall x :: x in r <==>
      exists a :: a in apps && a.compatibleAssets.Some? && x in a.compatibleAssets.value
  {
    var lists := seq(|apps|, i requires 0 <= i < |apps| => apps[i].compatibleAssets.GetOr([]));
    assert forall x, a :: a in apps && a.compatibleAssets.Some? && x in a.compatibleAssets.value ==> x in Flatten(lists) by {
      forall x, a | a in apps && a.compatibleAssets.Some? && x in a.compatibleAssets.value
        ensures x in Flatten(lists)
      {
        var i :| 0 <= i < |apps| && apps[i] == a;
        assert x in lists[i];
      }
    }
    Dedup(Flatten(lists))
  }

  // ---------------------------------------------------------------------
  // Page state

  /** The selection a menu's option click writes: the facet of menu `k`. */
  function WithSelection(f: Facets, k: DropdownKey, value: string): Facets {
    match k
    case CategoryMenu => f.(category := value)
    case DeveloperMenu => f.(developer := value)
    case CompatibleAssetsMenu => f.(compatibleAsset := value)
    case CapabilityMenu => f.(capability := value)
    case RatingMenu => f.(rating := value)
    case PriceMenu => f.(priceRange := value)
  }

  /** The state of the catalog page: the fetched apps, the search box, the six
      facet selections and which dropdown menus are open. */
  class CatalogPage {
    var apps: seq<App>
    var loading: bool
    var searchQuery: string
    var selectedCategory: string
    var selectedDeveloper: string
    var selectedCompatibleAsset: string
    var selectedCapability: string
    var selectedRating: string
    var selectedPriceRange: string
    var dropdownOpen: map<DropdownKey, bool>

    /** `dropdownOpen` is a record with one flag per menu. */
    predicate Valid()
      reads this
    {
      forall k: DropdownKey :: k in dropdownOpen
    }

    function Selections(): Facets
      reads this
    {
      Facets(selectedCategory, selectedDeveloper, selectedCompatibleAsset,
             selectedCapability, selectedRating, selectedPriceRange)
    }

    /** What the page renders as `filteredApps`, or the error it throws. */
    function FilteredApps(): Result<seq<App>>
      reads this
    {
      FilteredAppsAsWritten(apps, searchQuery, Selections())
    }

    constructor ()
      ensures Valid()
      ensures apps == [] && loading && searchQuery == "" && Selections() == NoFacets
      ensures forall k :: !dropdownOpen[k]
    {
      apps, loading, searchQuery := [], true, "";
      selectedCategory, selectedDeveloper, selectedCompatibleAsset := "", "", "";
      selectedCapability, selectedRating, selectedPriceRange := "", "", "";
      dropdownOpen := map[CategoryMenu := false, DeveloperMenu := false, CompatibleAssetsMenu := false,
                          CapabilityMenu := false, RatingMenu := false, PriceMenu := false];
      new;
      forall k: DropdownKey
        ensures k in dropdownOpen
      {
        assert k == CategoryMenu || k == DeveloperMenu || k == CompatibleAssetsMenu
            || k == CapabilityMenu || k == RatingMenu || k == PriceMenu;
      }
    }

    /** The fetch effect: a fetched list replaces `apps`; a failed fetch leaves
        it as it was; either way loading ends. */
    method ReceiveApps(fetched: Result<seq<App>>)
      modifies this`apps, this`loading
      ensures apps == if fetched.Success? then fetched.value else old(apps)
      ensures !loading
    {
      if fetched.Success? {
        apps := fetched.value;
      }
      loading := false;
    }

    method SetSearchQuery(query: string)
      modifies this`searchQuery
      ensures searchQuery == query
    {
      searchQuery := query;
    }

    /** `toggleDropdown(k)`: menu `k` flips, every other menu stays as it was. */
    method ToggleDropdown(k: DropdownKey)
      requires Valid()
      modifies this`dropdownOpen
      ensures Valid()
      ensures dropdownOpen[k] == !old(dropdownOpen[k])
      ensures forall j :: j != k ==> dropdownOpen[j] == old(dropdownOpen[j])
    {
      dropdownOpen := dropdownOpen[k := !dropdownOpen[k]];
    }

    /** An option click in menu `k` (including the "All ..." entries, which pass
        the empty string): the facet of that menu takes the value and the menu
        toggles. Choosing a rating or a price over a non-empty catalog makes
        the page's filter throw. */
    method ChooseOption(k: DropdownKey, value: string)
      requires Valid()
      modifies this`selectedCategory, this`selectedDeveloper, this`selectedCompatibleAsset
      modifies this`selectedCapability, this`selectedRating, this`selectedPriceRange, this`dropdownOpen
      ensures Valid()
      ensures Selections() == WithSelection(old(Selections()), k, value)
      ensures (k == RatingMenu || k == PriceMenu) && value != "" && |apps| > 0 ==> FilteredApps().Failure?
      ensures dropdownOpen[k] == !old(dropdownOpen[k])
      ensures forall j :: j != k ==> dropdownOpen[j] == old(dropdownOpen[j])
    {
      match k {
        case CategoryMenu => selectedCategory := value;
        case DeveloperMenu => selectedDeveloper := value;
        case CompatibleAssetsMenu => selectedCompatibleAsset := value;
        case CapabilityMenu => selectedCapability := value;
        case RatingMenu => selectedRating := value;
        case PriceMenu => selectedPriceRange := value;
      }
      ToggleDropdown(k);
    }

    /** "Clear All Filters": the six selections return to empty; the search
        text, the apps and the menus are untouched, so the page shows the
        search on its own. */
    method ClearAllFilters()
      modifies this`selectedCategory, this`selectedDeveloper, this`selectedCompatibleAsset
      modifies this`selectedCapability, this`selectedRating, this`selectedPriceRange
      ensures Selections() == NoFacets
      ensures FilteredApps() == Success(SearchOnly(apps, searchQuery))
    {
      selectedCategory, selectedDeveloper, selectedCompatibleAsset := "", "", "";
      selectedCapability, selectedRating, selectedPriceRange := "", "", "";
      NoFacetsIsSearchOnly(apps, searchQuery);
    }
  }
}

# OmniAppStore page logic in Dafny

OmniAppStore is a Next.js storefront for industrial apps and a per-user
repository of shop-floor assets (robots, CNC machines, end effectors) kept in
Firestore. Most of its code is UI and calls into the Firebase SDK. This
project models the rules inside the pages and proves what they do:

- **Catalog page** (`Catalog`, catalog.dfy). The faceted filter over the
  fetched apps: a case-insensitive name search, the category, developer and
  compatible-asset facets, the rating labels ("4+ Stars" ... "All Ratings") and
  the price labels ("Free", "$1 - $50" ... "$500+"). It also models the
  de-duplicated developer and compatible-asset option lists, and the page state
  that the dropdown, option and "Clear All Filters" handlers update
  (`CatalogPage`).
- **Owned-asset page** (`MyAssets`, my_assets.dfy). The category and
  "available" filter buttons, the four summary counts, and the selection of the
  user's assets from the profile's `myAssets` ids. Also the availability update
  that is applied only after the remote write succeeds
  (`AssetRepositoryPage`).
- **Add-asset dialog** (`AddAsset`, add_asset_modal.dfy). The four-field
  picker search, the guard/link/reset sequence of "Add to My Assets", and the
  three steps with their drag-and-drop transitions (`AddAssetModal`).
- **Asset card** (`AssetCards`, asset_card.dfy). The card keeps its own copy
  of the availability flag. Its optimistic toggle has no rollback. The card
  also maps health status to a dot colour (`AssetCard`).
- **App tile** (`AppTiles`, app_tile.dfy). The five-star loop, and the
  loading/error/content outcome of fetching one app document (`AppTile`).
- **Sign-up and sign-in** (`Auth`, auth.dfy). Usernames, the profile records
  written on e-mail registration and on a first Google sign-in, the profile
  read that never fails, and how failures are reported.

Shared modules:

- `Text` (text.dfy) models the JavaScript string operations the pages rely
  on: ASCII `toLowerCase`, `includes`, `split` with a non-empty separator,
  `replace` with a string pattern, decimal `parseInt` and `${n}`.
- `Seqs` (seqs.dfy) models `filter`, `[...new Set(...)]` and `flatMap`.
- `AssetTypes` (asset_types.dfy) holds the asset record and the conversion
  of a stored document into an asset.
- `Wrappers` (wrappers.dfy) holds `Option`, `Result` and `Outcome`.

Everything the SDK returns is an input. That covers a fetched snapshot, a
document read, the outcome of a write or of an authentication call, and the
value of `Math.random`. A failure is a `Failure`/`Fail` carrying the error's
message.

The catalog page is modelled as written: `CatalogPage.FilteredApps` is
`Catalog.FilteredAppsAsWritten`. That function throws when a rating or price
facet is set over a non-empty list (see Findings). `Catalog.FilterApps` is the
corrected composite, with the two helpers declared before use and every dollar
sign removed from a price label.

## Model

| member | source | states |
|---|---|---|
| Text.Lower | omni-app-store/src/app/AllApps/page.tsx:97 | same length; each ASCII capital becomes its small letter and every other character is kept |
| Text.Includes | omni-app-store/src/app/AllApps/page.tsx:97 | true exactly when the substring occurs at some position |
| Text.Split | omni-app-store/src/app/AllApps/page.tsx:109 | `split(sep)` gives at least one piece; what the pieces are is stated by `Text.JoinSplit`, `Text.SplitPiecesFree` and `Text.SplitCutsLeftmost` together |
| Text.JoinSplit | omni-app-store/src/app/AllApps/page.tsx:109 | joining the pieces of `split(sep)` with `sep` gives back the string |
| Text.SplitPiecesFree | omni-app-store/src/app/AllApps/page.tsx:109 | no piece of a split contains the separator |
| Text.SplitCutsLeftmost | omni-app-store/src/app/AllApps/page.tsx:109 | every cut is at the leftmost remaining occurrence: each piece but the last, followed by the separator, has its first occurrence of the separator right after the piece |
| Text.ReplaceFirst | omni-app-store/src/app/AllApps/page.tsx:116 | a string without the pattern is unchanged; otherwise only the first occurrence is replaced, the text around it is kept and the length changes by the difference of the two lengths |
| Text.ParseInt | omni-app-store/src/app/AllApps/page.tsx:116 | `parseInt` is NaN (None) exactly when no digit follows the leading white space and optional sign |
| Text.ParseIntOfNatToString | omni-app-store/src/app/AllApps/page.tsx:109 | `parseInt` reads back the decimal rendering of n, whatever non-digit text follows it |
| Text.NatToString | omni-app-store/src/lib/auth.ts:136 | `${n}` is a non-empty string of decimal digits |
| Text.DigitsValueOfNatToString | omni-app-store/src/lib/auth.ts:136 | the digits of `${n}` denote n |
| Text.NatToStringWidth | omni-app-store/src/lib/auth.ts:135-136 | a number below 1000 renders in at most three digits |
| Seqs.Filter | omni-app-store/src/app/AllApps/page.tsx:96-105 | an order-preserving subsequence holding each element that passes exactly as often as the input does, and nothing else |
| Seqs.FilterKeepsAll | omni-app-store/src/app/AllApps/page.tsx:96-105 | a filter every element passes returns its input |
| Seqs.FilterComplementCount | omni-app-store/src/app/my-assets/page.tsx:196-206 | the counts of a filter and of its negation add up to the length |
| Seqs.FilterCountsPositions | omni-app-store/src/app/my-assets/page.tsx:196-211 | `filter(p).length` is the number of positions whose element satisfies p |
| Seqs.Dedup | omni-app-store/src/app/AllApps/page.tsx:84-85 | no duplicates, the same members as the input, in order of first occurrence |
| Seqs.DedupDistinct | omni-app-store/src/app/AllApps/page.tsx:84 | a list without duplicates is its own de-duplication |
| AssetTypes.DocToAsset | omni-app-store/src/app/my-assets/page.tsx:51-54 | the document key becomes `asset_id` unless the document stores its own `asset_id`, which wins; every other field is as stored |
| AssetTypes.DocsToAssets | omni-app-store/src/components/ProfilePage/AddAssetModal.tsx:39-42 | one asset per document, in snapshot order |
| AssetTypes.DocsToAssetsMembers | omni-app-store/src/components/ProfilePage/AddAssetModal.tsx:39-42 | the converted list holds exactly the conversions of the documents |
| Catalog.FilteredAppsAsWritten | omni-app-store/src/app/AllApps/page.tsx:96-118 | throws exactly when the list is non-empty and a rating or price facet is set; otherwise an order-preserving subsequence holding exactly the apps that pass the search and the three list facets |
| Catalog.FilterApps | omni-app-store/src/app/AllApps/page.tsx:96-105 | corrected composite: an order-preserving subsequence keeping each app, as often as it occurs, exactly when it passes all six checks |
| Catalog.SearchOnly | omni-app-store/src/app/AllApps/page.tsx:97 | keeps an app exactly when the lower-cased query occurs in its lower-cased name, in order and as often as the list holds it; no other field is searched |
| Catalog.NothingSelectedKeepsAll | omni-app-store/src/app/AllApps/page.tsx:96-105 | with an empty query and no facet set, both composites return the whole list |
| Catalog.NoFacetsIsSearchOnly | omni-app-store/src/app/AllApps/page.tsx:96-105 | with no facet set the page's filter is the search alone |
| Catalog.CapabilityIgnored | omni-app-store/src/app/AllApps/page.tsx:96-105 | the capability selection never changes either composite's result |
| Catalog.AsWrittenAgreesWhenItReturns | omni-app-store/src/app/AllApps/page.tsx:96-118 | whenever the page's filter returns a list, it is the corrected filter's list |
| Catalog.RatingMatch | omni-app-store/src/app/AllApps/page.tsx:107-111 | "All Ratings" accepts every rating, and "N+ Stars" accepts exactly the ratings of at least N, for every N |
| Catalog.PriceMatch | omni-app-store/src/app/AllApps/page.tsx:113-118 | as written: "Free" accepts exactly price 0, "$500+" exactly prices above 500, and every bounded label "$a - $b" accepts no price |
| Catalog.IntendedPriceMatch | omni-app-store/src/app/AllApps/page.tsx:113-118 | corrected: "Free" and "$500+" as written, and every bounded label "$a - $b" accepts exactly the prices from a to b |
| Catalog.MatchesAll | omni-app-store/src/app/AllApps/page.tsx:96-105 | an app passes exactly when it matches the search and every facet that is set (the price facet through the given matcher); with no facet set the search alone decides |
| Catalog.RatingFacetKeeps | omni-app-store/src/app/AllApps/page.tsx:96-111 | for every list, query and N, with only "N+ Stars" chosen the corrected filter is the order-preserving selection of the apps that match the search and are rated at least N |
| Catalog.PriceFacetKeeps | omni-app-store/src/app/AllApps/page.tsx:96-118 | for every list, query, lo and hi, with only "$lo - $hi" chosen the corrected filter is the order-preserving selection of the apps that match the search and cost from lo to hi |
| Catalog.RatingOptionsMeaning | omni-app-store/src/app/AllApps/page.tsx:107-111 | "All Ratings" accepts everything and "4+" ... "1+ Stars" accept ratings of at least 4 ... 1 |
| Catalog.PriceRangesAsWritten | omni-app-store/src/app/AllApps/page.tsx:113-118 | the sidebar's labels as the page evaluates them: "Free" is price 0, "$500+" is above 500, the four brackets accept nothing |
| Catalog.PriceRangesIntended | omni-app-store/src/app/AllApps/page.tsx:113-118 | with the corrected parser the four brackets are 1-50, 51-100, 101-250 and 251-500 |
| Catalog.PriceBracketWitness | omni-app-store/src/app/AllApps/page.tsx:116 | a price of 25 is rejected by "$1 - $50" as written and accepted once corrected |
| Catalog.RatingScenario | omni-app-store/src/app/AllApps/page.tsx:96-111 | two apps rated 4.5 and 3.0 under "4+ Stars": the corrected filter keeps the first, the page's filter throws |
| Catalog.PriceScenario | omni-app-store/src/app/AllApps/page.tsx:96-118 | the same apps under "$51 - $100": the corrected filter keeps neither, the page's filter throws |
| Catalog.DeveloperOptions | omni-app-store/src/app/AllApps/page.tsx:84 | no duplicates; exactly the developers of some app |
| Catalog.CompatibleAssetOptions | omni-app-store/src/app/AllApps/page.tsx:85 | no duplicates; exactly the compatible assets some app lists, a missing list counting as empty |
| Catalog.CatalogPage.constructor | omni-app-store/src/app/AllApps/page.tsx:27-47 | no apps, loading, empty search, no facet set, every menu closed |
| Catalog.CatalogPage.ReceiveApps | omni-app-store/src/app/AllApps/page.tsx:56-73 | a fetched list replaces the apps, a failed fetch keeps them, loading ends either way |
| Catalog.CatalogPage.SetSearchQuery | omni-app-store/src/app/AllApps/page.tsx:168 | the search box holds the typed text |
| Catalog.CatalogPage.ToggleDropdown | omni-app-store/src/app/AllApps/page.tsx:88-93 | menu k flips and the other five keep their state |
| Catalog.CatalogPage.ChooseOption | omni-app-store/src/app/AllApps/page.tsx:201-373 | only menu k's facet takes the value and only menu k toggles; a rating or price choice over a non-empty catalog makes the page throw |
| Catalog.CatalogPage.ClearAllFilters | omni-app-store/src/app/AllApps/page.tsx:386-393 | the six selections become empty and, with the search kept, the page shows the search-only result |
| MyAssets.FilteredAssets | omni-app-store/src/app/my-assets/page.tsx:65-78 | "all" is the list itself; a category keeps exactly the assets of that category; "available" keeps exactly the available ones; order and multiplicities kept |
| MyAssets.ControllersShowNothing | omni-app-store/src/app/my-assets/page.tsx:70-71 | "plc_controller" shows nothing when every category is one of the three declared in types/asset.ts |
| MyAssets.ComputeStats | omni-app-store/src/app/my-assets/page.tsx:193-211 | total is the length; available plus in-maintenance is the total; available is the "available" filter's count; health issues is the number of positions whose asset reports "error", so zero exactly when none does |
| MyAssets.SetAvailability | omni-app-store/src/app/my-assets/page.tsx:90-102 | length, order, other assets and other fields unchanged; the matching assets take the new flag |
| MyAssets.SetAvailabilityLastWins | omni-app-store/src/app/my-assets/page.tsx:90-102 | a second update of the same asset overrides the first |
| MyAssets.SetAvailabilityCommutes | omni-app-store/src/app/my-assets/page.tsx:90-102 | updates of different assets commute |
| MyAssets.SetAvailabilityUnknownId | omni-app-store/src/app/my-assets/page.tsx:90-102 | an id no asset carries leaves the list unchanged |
| MyAssets.FindProfile | omni-app-store/src/app/my-assets/page.tsx:35 | the first profile whose key is the user's id, or none exactly when no key matches |
| MyAssets.OwnedIds | omni-app-store/src/app/my-assets/page.tsx:35-36 | the profile's `myAssets`, or none when the profile or its `myAssets` list is missing |
| MyAssets.OwnedDocs | omni-app-store/src/app/my-assets/page.tsx:49-50 | the snapshot documents whose key is an owned id, in snapshot order, each as often as the snapshot holds it |
| MyAssets.SelectUserAssets | omni-app-store/src/app/my-assets/page.tsx:49-54 | never more than the snapshot; nothing for no ids; position by position the conversion of the owned documents, so in snapshot order and with the snapshot's multiplicity |
| MyAssets.AssetRepositoryPage.constructor | omni-app-store/src/app/my-assets/page.tsx:15-18 | no assets, filter "all", loading |
| MyAssets.AssetRepositoryPage.SetActiveFilter | omni-app-store/src/app/my-assets/page.tsx:65-78 | the grid shows the chosen filter's result |
| MyAssets.AssetRepositoryPage.FetchUserAssets | omni-app-store/src/app/my-assets/page.tsx:26-62 | no user: nothing changes; no owned ids: empty list without reading assets; failed reads keep the list; otherwise the owned assets; loading ends |
| MyAssets.AssetRepositoryPage.HandleToggleAvailability | omni-app-store/src/app/my-assets/page.tsx:81-107 | the list is updated only after a successful write; a failed write keeps it and returns the alert text |
| AddAsset.PickerResults | omni-app-store/src/components/ProfilePage/AddAssetModal.tsx:96-107 | an order-preserving subsequence, never longer than the repository, holding each asset that matches in one of the four lower-cased fields as often as the repository does, and nothing else |
| AddAsset.EmptyQueryShowsAll | omni-app-store/src/components/ProfilePage/AddAssetModal.tsx:97-106 | an empty search shows every asset |
| AddAsset.SearchIgnoresCase | omni-app-store/src/components/ProfilePage/AddAssetModal.tsx:97 | a query and its lower-cased form give the same result |
| AddAsset.ArrayUnion | omni-app-store/src/components/ProfilePage/AddAssetModal.tsx:66-69 | the requested profile update adds the id once at the end unless already present, keeping earlier ids and their distinctness |
| AddAsset.AddAssetModal.constructor | omni-app-store/src/components/ProfilePage/AddAssetModal.tsx:19-24 | the dialog starts at the select step, with nothing selected, searched, loading or dragged |
| AddAsset.AddAssetModal.FetchAssets | omni-app-store/src/components/ProfilePage/AddAssetModal.tsx:32-57 | the repository becomes the converted snapshot, a failed read keeps it, loading ends |
| AddAsset.AddAssetModal.SetSearchQuery | omni-app-store/src/components/ProfilePage/AddAssetModal.tsx:206 | the picker shows the search result for the typed text |
| AddAsset.AddAssetModal.AddDisabled | omni-app-store/src/components/ProfilePage/AddAssetModal.tsx:324 | the add button is enabled only with a selection and no request in flight |
| AddAsset.AddAssetModal.SelectAsset | omni-app-store/src/components/ProfilePage/AddAssetModal.tsx:237 | the tile's id is selected; the add button is disabled exactly without a selection or while loading |
| AddAsset.AddAssetModal.SetStep | omni-app-store/src/components/ProfilePage/AddAssetModal.tsx:135-155 | the clicked tab becomes the step |
| AddAsset.AddAssetModal.DragOver | omni-app-store/src/components/ProfilePage/AddAssetModal.tsx:171 | dragging starts |
| AddAsset.AddAssetModal.DragLeave | omni-app-store/src/components/ProfilePage/AddAssetModal.tsx:172 | dragging ends |
| AddAsset.AddAssetModal.HandleFileDrop | omni-app-store/src/components/ProfilePage/AddAssetModal.tsx:90-94 | a drop ends dragging and moves to the manual step |
| AddAsset.AddAssetModal.HandleAddAsset | omni-app-store/src/components/ProfilePage/AddAssetModal.tsx:59-88 | nothing happens without a selection or a user; otherwise the link is requested, then on success the parent callback (if any), the reset of selection and search, and the close request; on failure the selection is kept and the alert shown; loading ends false |
| AssetCards.HealthStatusColor | omni-app-store/src/components/ProfilePage/AssetCard.tsx:31-42 | online is emerald, warning amber, error red, anything else slate |
| AssetCards.AvailabilityLabel | omni-app-store/src/components/ProfilePage/AssetCard.tsx:81 | "Available" exactly when available, otherwise "Maintenance" |
| AssetCards.AssetCard.constructor | omni-app-store/src/components/ProfilePage/AssetCard.tsx:13-14 | the card's flag starts as the asset's flag, not toggling |
| AssetCards.AssetCard.ToggleEnabled | omni-app-store/src/components/ProfilePage/AssetCard.tsx:85 | the toggle button is enabled exactly when no toggle is in flight |
| AssetCards.AssetCard.BeginToggle | omni-app-store/src/components/ProfilePage/AssetCard.tsx:17-21 | the card becomes busy (button disabled) and its flag flips before the callback; the callback receives the flipped value |
| AssetCards.AssetCard.EndToggle | omni-app-store/src/components/ProfilePage/AssetCard.tsx:28 | the card is no longer busy |
| AssetCards.AssetCard.HandleToggle | omni-app-store/src/components/ProfilePage/AssetCard.tsx:16-29 | the flag ends flipped whatever the write did; the page updates its list only on success and otherwise keeps it and alerts; the page's filter and loading flag stay as they were |
| AssetCards.AssetCard.ToggleTwice | omni-app-store/src/components/ProfilePage/AssetCard.tsx:16-29 | two completed toggles restore the card's flag and leave the page's filter and loading flag as they were; the page's list ends with the asset's original flag if the last successful write was the second, the flipped flag if only the first succeeded, and unchanged if neither did |
| AssetCards.FailedToggleDiverges | omni-app-store/src/components/ProfilePage/AssetCard.tsx:16-29 | after a failed write the card shows the flipped flag while the page keeps the stored asset |
| AppTiles.StarRow | omni-app-store/src/components/AppInfoConnected/AppTileConnected.tsx:72-89 | always five stars |
| AppTiles.RenderStars | omni-app-store/src/components/AppInfoConnected/AppTileConnected.tsx:68-92 | five stars; star i is filled exactly when the rating (missing as 0) reaches i - 0.5; the loop's result is the star row |
| AppTiles.StarCountIsRounded | omni-app-store/src/components/AppInfoConnected/AppTileConnected.tsx:72-89 | the filled count is the rating rounded half up, clamped to 0..5 |
| AppTiles.StarCountBounds | omni-app-store/src/components/AppInfoConnected/AppTileConnected.tsx:72-89 | between none and all five stars are filled |
| AppTiles.StarCountMonotone | omni-app-store/src/components/AppInfoConnected/AppTileConnected.tsx:72-89 | a higher rating never fills fewer stars |
| AppTiles.NoRatingNoStars | omni-app-store/src/components/AppInfoConnected/AppTileConnected.tsx:70 | a missing or zero rating shows five empty stars |
| AppTiles.DescriptionText | omni-app-store/src/components/AppInfoConnected/AppTileConnected.tsx:140 | an absent or empty description shows "No description available", any other is shown as is |
| AppTiles.View | omni-app-store/src/components/AppInfoConnected/AppTileConnected.tsx:98-155 | loading shows only the skeleton; otherwise a non-empty error shows the error card; content exactly otherwise, always with a description and five stars; once data is held it shows the app's name, its description or the fallback, its star row and its review count or 0; without data an empty name, the fallback, five empty stars and 0 |
| AppTiles.LoadingComesFirst | omni-app-store/src/components/AppInfoConnected/AppTileConnected.tsx:98-108 | while loading only the skeleton shows |
| AppTiles.ErrorsLookAlike | omni-app-store/src/components/AppInfoConnected/AppTileConnected.tsx:110-117 | both error kinds show the same "Error loading app" card, whatever data is held |
| AppTiles.AppTile.constructor | omni-app-store/src/components/AppInfoConnected/AppTileConnected.tsx:21-23 | no data, no error, loading |
| AppTiles.AppTile.CompleteFetch | omni-app-store/src/components/AppInfoConnected/AppTileConnected.tsx:40-60 | a found document is stored with the error untouched; a missing one sets "App not found"; a failed read sets "Error loading app"; loading ends; what the tile then shows |
| Auth.RandomSuffix | omni-app-store/src/lib/auth.ts:135 | floor(r * 1000) is below 1000 for r in [0, 1) |
| Auth.GenerateUsername | omni-app-store/src/lib/auth.ts:133-137 | the lower-cased names followed by one to three decimal digits of a number below 1000 |
| Auth.UsernameSuffixReadsBack | omni-app-store/src/lib/auth.ts:134-136 | the digits after the names read back as floor(r * 1000) |
| Auth.GetUserProfile | omni-app-store/src/lib/auth.ts:108-121 | a profile exactly when the document exists; none for a missing document and for a failed read |
| Auth.OrganisationOrDefault | omni-app-store/src/lib/auth.ts:45 | the given organisation, or "Individual" when absent or empty |
| Auth.RegistrationProfile | omni-app-store/src/lib/auth.ts:40-48 | user id, names, username, organisation rule, server timestamp and no assets |
| Auth.RegisterWithEmail | omni-app-store/src/lib/auth.ts:25-56 | an account failure or a write failure is reported with its own message; the profile is written under the new id |
| Auth.LoginWithEmail | omni-app-store/src/lib/auth.ts:59-71 | fails exactly when the sign-in fails, with its message; a profile exactly when the document exists, and then the stored profile itself |
| Auth.GoogleForename | omni-app-store/src/lib/auth.ts:87 | the first word of the display name, or "User" when there is none; never empty, never a space |
| Auth.GoogleSurname | omni-app-store/src/lib/auth.ts:88 | the second word of the display name, or "" |
| Auth.GoogleNamesOfTwoWords | omni-app-store/src/lib/auth.ts:84-91 | "First Last" gives forename First and surname Last |
| Auth.GoogleNamesOfOneWord | omni-app-store/src/lib/auth.ts:84-91 | a one-word name gives that forename and an empty surname |
| Auth.GoogleNamesOfLongerName | omni-app-store/src/lib/auth.ts:84-91 | only the first two words count |
| Auth.GoogleProfile | omni-app-store/src/lib/auth.ts:84-95 | user id, the two name pieces, a username built from them, "Individual", server timestamp and no assets |
| Auth.SignInWithGoogle | omni-app-store/src/lib/auth.ts:74-105 | an existing profile is returned unchanged and nothing is written; otherwise a new profile is written; popup and write failures keep their messages |
| Auth.LogOut | omni-app-store/src/lib/auth.ts:124-130 | fails exactly when the sign-out fails, with its message |

## Left out

- Firebase and Firestore calls (`getDocs`, `getDoc`, `updateDoc`, `setDoc`, the authentication functions) and the auth-state subscription: foreign library behaviour. Their outcomes are inputs (`Result`, `Outcome`, `ProfileRead`, `FetchOutcome`).
- AddAsset.AddAssetModal.HandleAddAsset: records the profile update it requests as an effect. `AddAsset.ArrayUnion` states that update's effect separately, because the stored profile lives in the database.
- JSX rendering and styling, the scroll listener, router navigation (`handleNavigate` and `encodeURIComponent`), and the dialog's `isOpen` gating: UI plumbing. The tile's render is modelled as a `TileView` value and the card's label and colour as strings.
- Async interleaving: each handler is one sequential step. `isToggling` is visible between `BeginToggle` and `EndToggle`, and nothing else runs in between.
- Text.Lower: ASCII letters only; Unicode case mapping is not modelled.
- Text.ParseInt: decimal only, and only ASCII white space is skipped; the `0x` prefix and other Unicode white space are not modelled.
- Text.Split: only non-empty separators, which is all the pages use.
- Text.ReplaceFirst: the replacement is inserted literally; JavaScript's `$&`, `$$` and `$n` patterns in a replacement string are not expanded. The only use replaces with "".
- Numbers: ratings are `real` and prices `int`. NaN, infinities and fractional prices are not modelled, so `rating || 0` becomes "missing rating is 0".
- Stored asset documents with missing fields: a missing string field of an asset is the empty string, which the picker's `|| ''` makes equivalent. On the app tile, `Description`, `AverageRating` and `ReviewCount` are explicit options. In the catalog only `Tags` and `CompatibleAssets` are options.
- Catalog.App: `AppName`, `AverageRating` and `Price` are assumed present. A missing `AppName` would make the page's filter throw a TypeError at `toLowerCase`. A missing rating would fail every rating facet. A missing price would fail "Free". None of these is modelled.
- `createdAt`: `serverTimestamp()` is a placeholder value; the stored time is not modelled.
- The static category and capability lists of the catalog sidebar, the stats labels and icons, and console logging: no logic.
- Auth.GetUserProfile: the stored profile is returned as read, with no field validation, as in the source's cast.

## Findings

| source | as written | input that shows it | evidently intended | confidence | as-written member | corrected member |
|---|---|---|---|---|---|---|
| omni-app-store/src/app/AllApps/page.tsx:96-113 | `filteredApps` runs its callback during render and calls `getRatingMatch`/`getPriceMatch`, `const`s declared further down, so a set rating or price facet over a non-empty list throws a ReferenceError | apps rated 4.5 and 3.0, facet "4+ Stars" | the list of apps rated at least 4 (the first app) | high, not executed | Catalog.RatingScenario | Catalog.FilterApps |
| omni-app-store/src/app/AllApps/page.tsx:116 | `replace('$', '')` removes only the first dollar sign, so the upper bound is `parseInt("$50")`, which is NaN, and every bounded bracket rejects every price | price 25, label "$1 - $50" | the bracket accepts prices from 1 to 50 | high, not executed | Catalog.PriceMatch | Catalog.IntendedPriceMatch |

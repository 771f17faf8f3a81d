# Food-Order: cart slice and restaurant listing filters in Dafny

A Dafny model of the two parts of the Food-Order front end whose behaviour can be stated exactly.

- **The cart slice** (`src/store/cartSliceReducer.js`). The cart is an ordered list of line items. It starts empty and has three reducers:
  - `addItem` pushes its payload.
  - `deleteItem` pops the last item, whatever payload it carries, and does nothing on an empty list.
  - `clearCart` replaces the state with an empty list.

  Module `CartSlice` holds the reducer on values (`Reduce`, `Run`) and the properties proved about it. Its class `Cart` has the `cartItems` field and one method per reducer; each method is proved against `Reduce`.
- **The restaurant listing** (`src/components/RestaurantContainer.js`).
  - Module `Listing` models the two button filters as pure functions over restaurant cards:
    - "Search" keeps the cards whose lower-cased name contains the lower-cased search text.
    - "Top Rated Restaurants" keeps the cards rated above 4.3.

    Both are instances of an order-preserving `filter`, and the lemmas say exactly which cards survive.
  - Module `RestaurantContainer` models the component's state: the `resCards` and `displayResCards` slots, the search text and the connectivity flag. It does so twice:
    - as a pure state machine (`Step`, `Run`) with the view choice (`Render`);
    - as a class `Container` whose handler methods overwrite the slots and are proved against `Step`.
  - Module `ListingFixtures` works through two concrete examples: ratings 4.1/4.3/4.5/4.9 under Top Rated, and a "burger" search over five restaurants.

Modelling choices:
- Ratings are integers in tenths of a star, so the threshold 4.3 is `43`.
- Lower-casing is ASCII only.
- `includes` is a substring test on `seq<char>`. It is proved equal to "occurs at some index" (`IncludesIff`).
- A slot that can hold `undefined` is an `Option`.
- The network and the connectivity hook are inputs: a fetch outcome parameter and a boolean.

Error paths in `fetchData` (`RestaurantContainer.js:32-47`):
- **`fetchData` throws before the setters.** `.catch` only logs and yields `undefined`, so after a rejected request `data.json()` throws. In the path `jsonData.data?.cards[4]?...`, the only guard before `cards[4]` is the `?.` after `data`. A JSON `null` body throws when `.data` is read. A `data` without `cards` throws at `undefined[4]`. A body that is not JSON makes `.json()` throw. In every such case neither slot is touched. `FetchCompleted(NetworkError)` stands for all of them and leaves the state unchanged.
- **The path yields `undefined`.** When `data` is missing, or a step after `cards[4]` is missing, both slots become `undefined` (`Fetched(None)`). The view then falls through to the list branch, because `undefined?.length === 0` is false, and renders no cards rather than the loading placeholder. With the source `undefined`, Search and Top Rated throw inside the handler and change nothing. `OnSearchClick` and `OnTopRatedClick` report this as `ok == false`.

## Model

| member | source | states |
|---|---|---|
| CartSlice.Cart.constructor | src/store/cartSliceReducer.js:5-7 | the slice starts with an empty `cartItems` list |
| CartSlice.Cart.AddItem | src/store/cartSliceReducer.js:9-11 | `cartItems` grows by one: the earlier items are unchanged and the payload is last; agrees with `Reduce` |
| CartSlice.Cart.DeleteItem | src/store/cartSliceReducer.js:12-14 | an empty cart stays empty (no error); otherwise exactly the last item is removed; the payload is never read; agrees with `Reduce` |
| CartSlice.Cart.ClearCart | src/store/cartSliceReducer.js:15-18 | the state becomes an empty list whatever it held |
| CartSlice.Reduce | src/store/cartSliceReducer.js:8-19 | for each action: add appends the payload keeping the old items as a prefix; delete on empty gives empty, otherwise the result plus the old last item is the old list; clear gives empty |
| CartSlice.AddThenDeleteRestores | src/store/cartSliceReducer.js:9-14 | `addItem(x)` then `deleteItem` gives back the previous cart |
| CartSlice.DeleteIgnoresPayload | src/store/cartSliceReducer.js:12-14 | `deleteItem` gives the same cart whichever item it names |
| CartSlice.ClearIdempotent | src/store/cartSliceReducer.js:15-18 | clearing twice equals clearing once, and both give the empty cart |
| CartSlice.AddsAppendInOrder | src/store/cartSliceReducer.js:9-11 | a run of `addItem` actions appends their payloads in dispatch order |
| CartSlice.DeletesKeepEmptyCartEmpty | src/store/cartSliceReducer.js:12-14 | any number of `deleteItem` actions on an empty cart leave it empty |
| CartSlice.ClearThenDeletesIsEmpty | src/store/cartSliceReducer.js:12-18 | `clearCart` followed by any number of `deleteItem` actions yields an empty cart |
| CartSlice.LengthBounds | src/store/cartSliceReducer.js:9-14 | without `clearCart`, the final length is at most the start length plus the number of adds, and at least that minus the number of deletes |
| CartSlice.LengthLaw | src/store/cartSliceReducer.js:8-19 | for any run of actions, the cart length is `LengthAfter`: +1 per add, -1 per delete unless the cart is empty, reset to 0 by clear |
| CartSlice.Scenario | src/store/cartSliceReducer.js:9-18 | add A, B, C gives [A,B,C]; delete gives [A,B]; add D gives [A,B,D]; clear gives [] |
| Listing.ToLower | src/components/RestaurantContainer.js:66 | same length; each character lower-cased; no upper-case ASCII letter remains; other characters are unchanged |
| Listing.ToLowerIdempotent | src/components/RestaurantContainer.js:66 | lower-casing an already lower-cased string changes nothing |
| Listing.IncludesIff | src/components/RestaurantContainer.js:66 | `includes` holds if and only if the text occurs at some index of the name |
| Listing.IncludesEmpty | src/components/RestaurantContainer.js:66 | the empty text is included in every string |
| Listing.NotIncludedWithoutFirstChar | src/components/RestaurantContainer.js:66 | a text whose first character is absent from the string is not included in it |
| Listing.ContainsAt | src/components/RestaurantContainer.js:65-67 | a card matches the search when, from some index on, its name equals the text up to case |
| Listing.FilterSpec | src/components/RestaurantContainer.js:65-67 | `filter` returns an order-preserving subsequence in which every element passes the test and every passing element keeps its multiplicity |
| Listing.FilterCharacterised | src/components/RestaurantContainer.js:65-67 | those three properties determine the result uniquely: any list that has them is the filtered list |
| Listing.Search | src/components/RestaurantContainer.js:65-67 | the Search result is an order-preserving subsequence of the source; every kept card matches case-insensitively; every matching card is kept as often as it occurs |
| Listing.TopRated | src/components/RestaurantContainer.js:76-78 | the Top Rated result is an order-preserving subsequence of the source; every kept card is rated above 4.3; every such card is kept as often as it occurs |
| Listing.SearchEmptyKeepsAll | src/components/RestaurantContainer.js:65-67 | searching for empty text returns the source unchanged, in order |
| Listing.TopRatedIsStrict | src/components/RestaurantContainer.js:77 | a card rated exactly 4.3 is excluded; a card rated 4.4 is kept |
| ListingFixtures.TopRatedFixture | src/components/RestaurantContainer.js:76-78 | ratings 4.1, 4.3, 4.5, 4.9 keep only the 4.5 and 4.9 cards, in order |
| ListingFixtures.SearchFixture | src/__tests__/searchRestaurantCards.test.js:25-30 | searching "burger" over five restaurants returns exactly the two whose names contain it in any case, in order |
| RestaurantContainer.Step | src/components/RestaurantContainer.js:45-79 | only a completed fetch replaces `resCards`; a successful fetch puts the same list in both slots; a failed one changes nothing; Search and Top Rated set the display from `resCards` and the search text, and change nothing when `resCards` is undefined |
| RestaurantContainer.Render | src/components/RestaurantContainer.js:49-90 | the offline message shows exactly when offline; the placeholder shows exactly when online and `resCards` is an empty list; otherwise the cards of `displayResCards` are listed, none when it is undefined |
| RestaurantContainer.InitialShowsShimmer | src/components/RestaurantContainer.js:16-53 | a freshly mounted component shows the placeholder when online and the offline message otherwise |
| RestaurantContainer.RenderAfterLoad | src/components/RestaurantContainer.js:45-53 | after loading a list while online, the view lists exactly that list, or shows the placeholder if it is empty |
| RestaurantContainer.SourceOnlyChangedByFetch | src/components/RestaurantContainer.js:45-79 | no sequence of events without a fetch changes `resCards` |
| RestaurantContainer.FilterClicksOnlyChangeDisplay | src/components/RestaurantContainer.js:64-80 | a run of Search/Top Rated clicks changes only `displayResCards`, and nothing at all while `resCards` is undefined |
| RestaurantContainer.FiltersNotCumulative | src/components/RestaurantContainer.js:65-79 | after any run of filter clicks, one more click yields the same state as that click alone |
| RestaurantContainer.NoShimmerAfterNonEmptyLoad | src/components/RestaurantContainer.js:52-68 | once a non-empty list is loaded, no later event other than a fetch brings back the placeholder |
| RestaurantContainer.SearchWithoutMatchShowsEmptyList | src/components/RestaurantContainer.js:52-90 | after a non-empty load while online, a search that matches no card shows an empty list, not the placeholder |
| RestaurantContainer.RenderAfterSearch | src/components/RestaurantContainer.js:64-90 | after Search on a non-empty source while online, the view lists exactly the matching cards in source order |
| RestaurantContainer.Container.constructor | src/components/RestaurantContainer.js:16-19 | both slots start as empty lists, the search text as empty, and `online` as the hook reports |
| RestaurantContainer.Container.FetchData | src/components/RestaurantContainer.js:32-47 | a failed request leaves the state unchanged; otherwise both slots get the extracted value, which may be undefined; agrees with `Step` |
| RestaurantContainer.Container.SetSearchText | src/components/RestaurantContainer.js:59-61 | only the search text changes |
| RestaurantContainer.Container.OnSearchClick | src/components/RestaurantContainer.js:64-69 | the display becomes Search over `resCards` with the current text; `resCards` is unchanged; if `resCards` is undefined the handler fails and nothing changes |
| RestaurantContainer.Container.OnTopRatedClick | src/components/RestaurantContainer.js:75-80 | the display becomes Top Rated over `resCards`; `resCards` is unchanged; if `resCards` is undefined the handler fails and nothing changes |
| RestaurantContainer.Container.SetOnline | src/components/RestaurantContainer.js:19 | only the connectivity flag changes |

## Left out

- The network.
  - `fetch`, the CORS proxy URL, the API-key header and `.json()` parsing are left out.
  - The deep optional-chained path into the response (`RestaurantContainer.js:42-44`) is left out too.
  - The outcome of a fetch is an input (`FetchOutcome`): a rejected request, or the value the path yielded. That value is a list or `undefined`; other shapes a changed upstream API might yield are not modelled.
- Asynchrony.
  - A fetch that resolves after the component unmounts is not modelled.
  - Neither is React's batching of the two setters, or handlers seeing the state of the render that created them. Each event applies atomically to the current state.
- Connectivity. `src/utils/useOnlineStatus.js` is not part of this model; the online flag is an input (`SetOnline`, `ConnectivityChanged`).
- When events can fire. The buttons exist only while the list is rendered. The model accepts every event in every state, which covers the reachable cases.
- Card fields.
  - A card keeps only `id`, `name` and `avgRating`. The model assumes every card has a string name; a card without one would make `toLowerCase` throw.
  - Ratings are integer tenths. JavaScript's floating-point `> 4.3`, ratings with more than one decimal, and missing ratings are not modelled.
- Lower-casing is ASCII only; Unicode case mapping is not modelled.
- Rendering is reduced to `View` (offline message, placeholder, or a list of cards). The JSX components are not modelled (`RestaurantCard`, `ShimmerUI`, the router `Link`s and their keys, the menu and cart pages).
- The Redux store is left out: `appStore.js`, `dispatch`, `useSelector` and subscriber notification. Only the reducer transitions are modelled.
- Also left out: the other pages and demos (`About.js`, `UserClass.js`, `RestaurantMenu.js`, `useRestaurantMenu.js`) and the application bootstrap files.

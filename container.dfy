/** The restaurant listing component: two state slots (`resCards`, the
    fetched source, and `displayResCards`, what is shown), the search box
    text, the connectivity flag, the handlers that overwrite those slots,
    and the choice of what to render. */
module RestaurantContainer {
  import opened Listing

  /** A state slot that may hold `undefined`. */
  datatype Option<T> = None | Some(value: T)

  /** How the listing fetch ended. `NetworkError`: the handler threw before
      either setter ran, so no state changed. That covers a rejected request,
      a body that is not JSON, a JSON `null` body (reading `.data` throws),
      and a `data` without `cards` (the only guard before `cards[4]` is the
      `?.` after `data`, so `undefined[4]` throws). `Fetched(data)`: `data` is
      what the path into the response yielded, `None` when `data` or a step
      after `cards[4]` was missing. */
  datatype FetchOutcome = NetworkError | Fetched(data: Option<seq<Card>>)

  datatype State = State(
    resCards: Option<seq<Card>>,
    displayResCards: Option<seq<Card>>,
    searchText: string,
    online: bool)

  /** What can happen to the component. */
  datatype Event =
    | FetchCompleted(outcome: FetchOutcome)
    | SearchTextChanged(text: string)
    | SearchClicked
    | TopRatedClicked
    | ConnectivityChanged(isOnline: bool)

  predicate IsFilterClick(e: Event) { e.SearchClicked? || e.TopRatedClicked? }

  /** What the component renders. */
  datatype View = OfflineMessage | Shimmer | CardList(cards: seq<Card>)

  /** Both slots start as empty lists, the search text as "". */
  function Initial(online: bool): State
  {
    State(Some([]), Some([]), "", online)
  }

  /** The state after one event. A filter click while `resCards` is
      `undefined` throws inside the handler and changes nothing. */
  function Step(s: State, e: Event): (r: State)
    // only a completed fetch replaces the source list
    ensures !e.FetchCompleted? ==> r.resCards == s.resCards
    // only a fetch or a filter click changes what is displayed
    ensures !e.FetchCompleted? && !IsFilterClick(e) ==> r.displayResCards == s.displayResCards
    // a successful fetch puts the same list in both slots
    ensures e.FetchCompleted? && e.outcome.Fetched? ==>
      r.resCards == r.displayResCards == e.outcome.data
    ensures e == FetchCompleted(NetworkError) ==> r == s
    // filters read the source, never the current display
    ensures e.SearchClicked? && s.resCards.Some? ==>
      r.displayResCards == Some(Search(s.resCards.value, s.searchText))
    ensures e.TopRatedClicked? && s.resCards.Some? ==>
      r.displayResCards == Some(TopRated(s.resCards.value))
    ensures IsFilterClick(e) && s.resCards.None? ==> r == s
    ensures r.searchText == (if e.SearchTextChanged? then e.text else s.searchText)
    ensures r.online == (if e.ConnectivityChanged? then e.isOnline else s.online)
  {
    match e
    case FetchCompleted(NetworkError) => s
    case FetchCompleted(Fetched(data)) => s.(resCards := data, displayResCards := data)
    case SearchTextChanged(text) => s.(searchText := text)
    case SearchClicked =>
      if s.resCards.None? then s
      else s.(displayResCards := Some(Search(s.resCards.value, s.searchText)))
    case TopRatedClicked =>
      if s.resCards.None? then s
      else s.(displayResCards := Some(TopRated(s.resCards.value)))
    case ConnectivityChanged(b) => s.(online := b)
  }

  function Run(s: State, events: seq<Event>): State
    decreases |events|
  {
    if events == [] then s else Run(Step(s, events[0]), events[1..])
  }

  /** The rendered view: the offline message first; then the loading
      placeholder while `resCards` has length 0 (an `undefined` source has
      no length, so it falls through); then the displayed cards, of which an
      `undefined` display renders none. */
  function Render(s: State): (v: View)
    ensures v == OfflineMessage <==> !s.online
    ensures v == Shimmer <==> s.online && s.resCards == Some([])
    ensures v.CardList? <==> s.online && s.resCards != Some([])
    ensures v.CardList? && s.displayResCards.Some? ==> v.cards == s.displayResCards.value
    ensures v.CardList? && s.displayResCards.None? ==> v.cards == []
  {
    if !s.online then OfflineMessage
    else if s.resCards == Some([]) then Shimmer
    else CardList(if s.displayResCards.Some? then s.displayResCards.value else [])
  }

  /** Until the fetch completes, an online component shows the placeholder. */
  lemma InitialShowsShimmer(online: bool)
    ensures Render(Initial(online)) == if online then Shimmer else OfflineMessage
  {
  }

  /** After a load, an online component lists everything loaded, or keeps
      the placeholder when nothing was loaded. */
  lemma RenderAfterLoad(s: State, cards: seq<Card>)
    requires s.online
    ensures Render(Step(s, FetchCompleted(Fetched(Some(cards))))) ==
      if cards == [] then Shimmer else CardList(cards)
  {
  }

  /** Events other than a completed fetch never change the source list. */
  lemma {:induction false} SourceOnlyChangedByFetch(s: State, events: seq<Event>)
    requires forall i :: 0 <= i < |events| ==> !events[i].FetchCompleted?
    ensures Run(s, events).resCards == s.resCards
    decreases |events|
  {
    if events != [] {
      SourceOnlyChangedByFetch(Step(s, events[0]), events[1..]);
    }
  }

  /** A run of filter clicks changes at most the displayed list, and while
      the source is `undefined` it changes nothing at all. */
  lemma {:induction false} FilterClicksOnlyChangeDisplay(s: State, clicks: seq<Event>)
    requires forall i :: 0 <= i < |clicks| ==> IsFilterClick(clicks[i])
    ensures Run(s, clicks) == s.(displayResCards := Run(s, clicks).displayResCards)
    ensures s.resCards.None? ==> Run(s, clicks) == s
    decreases |clicks|
  {
    if clicks != [] {
      FilterClicksOnlyChangeDisplay(Step(s, clicks[0]), clicks[1..]);
    }
  }

  /** Filtering does not accumulate: after any run of Search and Top Rated
      clicks, one more click gives the same state as that click alone. */
  lemma FiltersNotCumulative(s: State, clicks: seq<Event>, last: Event)
    requires forall i :: 0 <= i < |clicks| ==> IsFilterClick(clicks[i])
    requires IsFilterClick(last)
    ensures Step(Run(s, clicks), last) == Step(s, last)
  {
    FilterClicksOnlyChangeDisplay(s, clicks);
  }

  /** Once a non-empty list is loaded, no later event except another fetch
      brings back the placeholder. */
  lemma {:induction false} NoShimmerAfterNonEmptyLoad(s: State, cards: seq<Card>, events: seq<Event>)
    requires cards != []
    requires forall i :: 0 <= i < |events| ==> !events[i].FetchCompleted?
    ensures Render(Run(Step(s, FetchCompleted(Fetched(Some(cards)))), events)) != Shimmer
  {
    SourceOnlyChangedByFetch(Step(s, FetchCompleted(Fetched(Some(cards)))), events);
  }

  /** A search that matches no card of a loaded, non-empty source shows an
      empty list, not the placeholder. */
  lemma SearchWithoutMatchShowsEmptyList(s: State, cards: seq<Card>)
    requires s.online && cards != []
    requires forall i :: 0 <= i < |cards| ==> !MatchesSearch(cards[i], s.searchText)
    ensures Render(Step(Step(s, FetchCompleted(Fetched(Some(cards)))), SearchClicked)) == CardList([])
  {
    FilterKeepsNone(cards, c => MatchesSearch(c, s.searchText));
  }

  /** After Search on a loaded, non-empty source, an online component lists
      exactly the matching cards, in source order. */
  lemma RenderAfterSearch(s: State, cards: seq<Card>)
    requires s.online && s.resCards == Some(cards) && cards != []
    ensures Render(Step(s, SearchClicked)) == CardList(Search(cards, s.searchText))
  {
  }

  /** The component's state slots, overwritten by its setters. */
  class Container {
    var resCards: Option<seq<Card>>
    var displayResCards: Option<seq<Card>>
    var searchText: string
    var online: bool

    function Snapshot(): State
      reads this
    {
      State(resCards, displayResCards, searchText, online)
    }

    /** Mounting: both slots empty, no search text; `online` is what the
        connectivity hook reports. */
    constructor (isOnline: bool)
      ensures Snapshot() == Initial(isOnline)
    {
      resCards, displayResCards := Some([]), Some([]);
      searchText := "";
      online := isOnline;
    }

    /** `fetchData`, from the point where the request has settled. */
    method FetchData(outcome: FetchOutcome)
      modifies this
      ensures Snapshot() == Step(old(Snapshot()), FetchCompleted(outcome))
      ensures outcome.NetworkError? ==> unchanged(this)
      ensures outcome.Fetched? ==> resCards == displayResCards == outcome.data
      ensures searchText == old(searchText) && online == old(online)
    {
      match outcome {
        case NetworkError =>
        case Fetched(data) =>
          resCards := data;
          displayResCards := data;
      }
    }

    /** The search box's `onChange`. */
    method SetSearchText(text: string)
      modifies this
      ensures Snapshot() == Step(old(Snapshot()), SearchTextChanged(text))
      ensures searchText == text
      ensures resCards == old(resCards) && displayResCards == old(displayResCards)
      ensures online == old(online)
    {
      searchText := text;
    }

    /** The Search button's `onClick`; `ok` is false when the handler throws
        because `resCards` is `undefined`. */
    method OnSearchClick() returns (ok: bool)
      modifies this
      ensures ok <==> old(resCards).Some?
      ensures Snapshot() == Step(old(Snapshot()), SearchClicked)
      ensures resCards == old(resCards) && searchText == old(searchText) && online == old(online)
      ensures ok ==> displayResCards == Some(Search(resCards.value, searchText))
      ensures !ok ==> unchanged(this)
    {
      ok := resCards.Some?;
      if ok {
        displayResCards := Some(Search(resCards.value, searchText));
      }
    }

    /** The Top Rated button's `onClick`; `ok` as for Search. */
    method OnTopRatedClick() returns (ok: bool)
      modifies this
      ensures ok <==> old(resCards).Some?
      ensures Snapshot() == Step(old(Snapshot()), TopRatedClicked)
      ensures resCards == old(resCards) && searchText == old(searchText) && online == old(online)
      ensures ok ==> displayResCards == Some(TopRated(resCards.value))
      ensures !ok ==> unchanged(this)
    {
      ok := resCards.Some?;
      if ok {
        displayResCards := Some(TopRated(resCards.value));
      }
    }

    /** A change reported by the connectivity hook. */
    method SetOnline(isOnline: bool)
      modifies this
      ensures Snapshot() == Step(old(Snapshot()), ConnectivityChanged(isOnline))
      ensures online == isOnline
      ensures resCards == old(resCards) && displayResCards == old(displayResCards)
      ensures searchText == old(searchText)
    {
      online := isOnline;
    }
  }
}

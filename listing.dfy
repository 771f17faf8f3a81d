/** The listing filters behind the "Search" and "Top Rated Restaurants"
    buttons: order-preserving filters over the fetched restaurant cards. */
module Listing {

  /** One restaurant card, reduced to the `info` fields the listing reads.
      `avgRating` is in tenths of a star (4.3 stars is 43). */
  datatype Card = Card(id: string, name: string, avgRating: int)

  /** "Top Rated" keeps ratings strictly above 4.3 stars. */
  const TopRatedThreshold: int := 43

  // ---------------------------------------------------------------------
  // Case-insensitive substring test
  // ---------------------------------------------------------------------

  predicate IsUpper(c: char) { 'A' <= c <= 'Z' }

  /** Lower-cases one ASCII letter; every other character is kept. */
  function LowerChar(c: char): char
  {
    if IsUpper(c) then (c as int + 32) as char else c
  }

  /** `toLowerCase`, restricted to ASCII. */
  function ToLower(s: string): (r: string)
    ensures |r| == |s|
    ensures forall i :: 0 <= i < |s| ==> r[i] == LowerChar(s[i])
    ensures forall i :: 0 <= i < |r| ==> !IsUpper(r[i])
    ensures forall i :: 0 <= i < |s| && !IsUpper(s[i]) ==> r[i] == s[i]
  {
    if s == [] then [] else [LowerChar(s[0])] + ToLower(s[1..])
  }

  /** Lower-casing twice is lower-casing once. */
  lemma ToLowerIdempotent(s: string)
    ensures ToLower(ToLower(s)) == ToLower(s)
  {
  }

  /** `t` occurs in `s` starting at index `i`. */
  ghost predicate OccursAt(s: string, t: string, i: int)
  {
    0 <= i && i + |t| <= |s| && s[i..i + |t|] == t
  }

  /** `s.includes(t)`: tries each start position from the left. */
  predicate Includes(s: string, t: string)
    decreases |s|
  {
    if |t| > |s| then false
    else if s[..|t|] == t then true
    else Includes(s[1..], t)
  }

  /** `Includes` holds exactly when `t` occurs somewhere in `s`. */
  lemma {:induction false} IncludesIff(s: string, t: string)
    ensures Includes(s, t) <==> exists i :: OccursAt(s, t, i)
    decreases |s|
  {
    if |t| > |s| {
      assert forall i :: !OccursAt(s, t, i);
    } else if s[..|t|] == t {
      assert OccursAt(s, t, 0);
    } else {
      IncludesIff(s[1..], t);
      if Includes(s[1..], t) {
        var j :| OccursAt(s[1..], t, j);
        assert s[1..][j..j + |t|] == s[j + 1..j + 1 + |t|];
        assert OccursAt(s, t, j + 1);
      }
      if i :| OccursAt(s, t, i) {
        assert i != 0;
        assert s[1..][i - 1..i - 1 + |t|] == s[i..i + |t|];
        assert OccursAt(s[1..], t, i - 1);
      }
    }
  }

  /** A text that occurs at some index is included. */
  lemma IncludedWhereOccurs(s: string, t: string, i: int)
    requires OccursAt(s, t, i)
    ensures Includes(s, t)
  {
    IncludesIff(s, t);
  }

  /** The empty text is included in every string. */
  lemma IncludesEmpty(s: string)
    ensures Includes(s, [])
  {
  }

  /** A text whose first character never occurs in `s` is not included in `s`. */
  lemma {:induction false} NotIncludedWithoutFirstChar(s: string, t: string)
    requires t != []
    requires forall i :: 0 <= i < |s| ==> s[i] != t[0]
    ensures !Includes(s, t)
    decreases |s|
  {
    if |t| <= |s| {
      assert s[..|t|][0] == s[0];
      NotIncludedWithoutFirstChar(s[1..], t);
    }
  }

  /** A card matches when, from some index on, its name agrees with the
      text up to case. */
  lemma ContainsAt(c: Card, text: string, i: nat)
    requires i + |text| <= |c.name|
    requires forall k :: 0 <= k < |text| ==> LowerChar(c.name[i + k]) == LowerChar(text[k])
    ensures MatchesSearch(c, text)
  {
    var s, t := ToLower(c.name), ToLower(text);
    assert OccursAt(s, t, i) by {
      assert forall k :: i <= k < i + |t| ==> s[i..i + |t|][k - i] == s[k];
    }
    IncludedWhereOccurs(s, t, i);
  }

  /** The Search predicate: the lower-cased name contains the lower-cased text. */
  predicate MatchesSearch(card: Card, text: string)
  {
    Includes(ToLower(card.name), ToLower(text))
  }

  /** The Top Rated predicate: `avgRating > 4.3`. */
  predicate IsTopRated(card: Card)
  {
    card.avgRating > TopRatedThreshold
  }

  // ---------------------------------------------------------------------
  // Array.prototype.filter
  // ---------------------------------------------------------------------

  /** `r` is `s` with some elements left out and the rest in their order. */
  ghost predicate IsSubsequence<T>(r: seq<T>, s: seq<T>)
    decreases |s|
  {
    if r == [] then true
    else if s == [] then false
    else (r[0] == s[0] && IsSubsequence(r[1..], s[1..])) || IsSubsequence(r, s[1..])
  }

  /** `cards.filter(keep)`: tests each card in order, keeping those that pass. */
  function Filter(cards: seq<Card>, keep: Card -> bool): seq<Card>
    decreases |cards|
  {
    if cards == [] then []
    else if keep(cards[0]) then [cards[0]] + Filter(cards[1..], keep)
    else Filter(cards[1..], keep)
  }

  /** One step of `filter`. */
  lemma FilterCons(h: Card, t: seq<Card>, keep: Card -> bool)
    ensures Filter([h] + t, keep) == if keep(h) then [h] + Filter(t, keep) else Filter(t, keep)
  {
    assert ([h] + t)[0] == h && ([h] + t)[1..] == t;
  }

  /** What `filter` promises: the order-preserving subsequence of the cards
      that pass `keep`, each passing card as often as it occurs in `cards`. */
  lemma {:induction false} FilterSpec(cards: seq<Card>, keep: Card -> bool)
    ensures IsSubsequence(Filter(cards, keep), cards)
    ensures forall c :: c in Filter(cards, keep) ==> keep(c)
    ensures forall c :: keep(c) ==> multiset(Filter(cards, keep))[c] == multiset(cards)[c]
    decreases |cards|
  {
    if cards != [] {
      FilterSpec(cards[1..], keep);
      assert cards == [cards[0]] + cards[1..];
    }
  }

  /** A subsequence never holds an element more often than its source. */
  lemma {:induction false} SubsequenceMultiset<T>(r: seq<T>, s: seq<T>)
    requires IsSubsequence(r, s)
    ensures multiset(r) <= multiset(s)
    decreases |s|
  {
    if r != [] {
      assert s == [s[0]] + s[1..];
      if r[0] == s[0] && IsSubsequence(r[1..], s[1..]) {
        SubsequenceMultiset(r[1..], s[1..]);
        assert r == [r[0]] + r[1..];
      } else {
        SubsequenceMultiset(r, s[1..]);
      }
    }
  }

  /** The three properties in Filter's contract determine its result: any
      list that has them is `Filter(cards, keep)`. */
  lemma {:induction false} FilterCharacterised(r: seq<Card>, cards: seq<Card>, keep: Card -> bool)
    requires IsSubsequence(r, cards)
    requires forall c :: c in r ==> keep(c)
    requires forall c :: keep(c) ==> multiset(r)[c] == multiset(cards)[c]
    ensures r == Filter(cards, keep)
    decreases |cards|
  {
    if cards == [] {
      assert r == [];
    } else {
      var h, t := cards[0], cards[1..];
      assert cards == [h] + t;
      FilterSpec(t, keep);
      if keep(h) {
        if r != [] && r[0] == h && IsSubsequence(r[1..], t) {
          assert r == [h] + r[1..];
          forall c | keep(c) ensures multiset(r[1..])[c] == multiset(t)[c] {
            assert multiset(r)[c] == multiset(r[1..])[c] + (if c == h then 1 else 0);
          }
          FilterCharacterised(r[1..], t, keep);
        } else {
          // r must skip h, yet it holds h as often as cards does
          SubsequenceMultiset(r, t);
          assert false;
        }
      } else {
        assert IsSubsequence(r, t);
        forall c | keep(c) ensures multiset(r)[c] == multiset(t)[c] {
          assert c != h;
        }
        FilterCharacterised(r, t, keep);
      }
    }
  }

  /** Filtering with a test every card passes keeps the whole list. */
  lemma {:induction false} FilterKeepsAll(cards: seq<Card>, keep: Card -> bool)
    requires forall i :: 0 <= i < |cards| ==> keep(cards[i])
    ensures Filter(cards, keep) == cards
    decreases |cards|
  {
    if cards != [] {
      FilterKeepsAll(cards[1..], keep);
    }
  }

  /** Filtering with a test no card passes keeps nothing. */
  lemma {:induction false} FilterKeepsNone(cards: seq<Card>, keep: Card -> bool)
    requires forall i :: 0 <= i < |cards| ==> !keep(cards[i])
    ensures Filter(cards, keep) == []
    decreases |cards|
  {
    if cards != [] {
      FilterKeepsNone(cards[1..], keep);
    }
  }

  // ---------------------------------------------------------------------
  // The two buttons
  // ---------------------------------------------------------------------

  /** "Search": the cards whose name contains `text`, ignoring case. */
  function Search(cards: seq<Card>, text: string): (r: seq<Card>)
    ensures IsSubsequence(r, cards)
    ensures forall c :: c in r ==> MatchesSearch(c, text)
    ensures forall c {:trigger multiset(r)[c]} :: MatchesSearch(c, text) ==> multiset(r)[c] == multiset(cards)[c]
  {
    FilterSpec(cards, c => MatchesSearch(c, text));
    Filter(cards, c => MatchesSearch(c, text))
  }

  /** "Top Rated Restaurants": the cards rated above 4.3 stars. */
  function TopRated(cards: seq<Card>): (r: seq<Card>)
    ensures IsSubsequence(r, cards)
    ensures forall c :: c in r ==> c.avgRating > TopRatedThreshold
    ensures forall c {:trigger multiset(r)[c]} :: IsTopRated(c) ==> multiset(r)[c] == multiset(cards)[c]
  {
    FilterSpec(cards, IsTopRated);
    Filter(cards, IsTopRated)
  }

  /** Searching for the empty text keeps every card, in order. */
  lemma SearchEmptyKeepsAll(cards: seq<Card>)
    ensures Search(cards, "") == cards
  {
    forall i | 0 <= i < |cards| ensures MatchesSearch(cards[i], "") {
      IncludesEmpty(ToLower(cards[i].name));
    }
    FilterKeepsAll(cards, c => MatchesSearch(c, ""));
  }

  /** A card rated exactly 4.3 stars is not top rated; one above it is kept. */
  lemma TopRatedIsStrict(cards: seq<Card>, c: Card)
    requires c in cards
    ensures c.avgRating == TopRatedThreshold ==> c !in TopRated(cards)
    ensures c.avgRating == TopRatedThreshold + 1 ==> c in TopRated(cards)
  {
    if c.avgRating == TopRatedThreshold + 1 {
      assert multiset(TopRated(cards))[c] == multiset(cards)[c] > 0;
    }
  }
}

/** Worked examples of the two filters: the top-rated threshold on ratings
    4.1, 4.3, 4.5 and 4.9, and a case-insensitive search for "burger" over
    five restaurants of which two match. */
module ListingFixtures {
  import opened Listing

  /** Ratings 4.1, 4.3, 4.5, 4.9: Top Rated keeps the last two. */
  lemma TopRatedFixture(a: Card, b: Card, c: Card, d: Card)
    requires a.avgRating == 41 && b.avgRating == 43 && c.avgRating == 45 && d.avgRating == 49
    ensures TopRated([a, b, c, d]) == [c, d]
  {
    assert [a, b, c, d][1..] == [b, c, d] && [b, c, d][1..] == [c, d];
    assert [c, d][1..] == [d] && [d][1..] == [];
    calc {
      TopRated([a, b, c, d]);
      Filter([b, c, d], IsTopRated);
      Filter([c, d], IsTopRated);
      [c] + Filter([d], IsTopRated);
      [c] + ([d] + Filter([], IsTopRated));
    }
  }

  /** A name with no letter b cannot contain a text that starts with b. */
  lemma NoMatchWithoutB(c: Card, text: string)
    requires text != [] && text[0] == 'b'
    requires 'b' !in c.name && 'B' !in c.name
    ensures !MatchesSearch(c, text)
  {
    NotIncludedWithoutFirstChar(ToLower(c.name), ToLower(text));
  }

  /** Search over five cards of which the first and third match. */
  lemma SearchKeepsFirstAndThird(c1: Card, c2: Card, c3: Card, c4: Card, c5: Card, text: string)
    requires MatchesSearch(c1, text) && MatchesSearch(c3, text)
    requires !MatchesSearch(c2, text) && !MatchesSearch(c4, text) && !MatchesSearch(c5, text)
    ensures Search([c1, c2, c3, c4, c5], text) == [c1, c3]
  {
    var keep := c => MatchesSearch(c, text);
    FilterCons(c5, [], keep);
    FilterCons(c4, [c5], keep);
    FilterCons(c3, [c4, c5], keep);
    FilterCons(c2, [c3, c4, c5], keep);
    FilterCons(c1, [c2, c3, c4, c5], keep);
    assert [c1] + [c2, c3, c4, c5] == [c1, c2, c3, c4, c5];
  }

  const BurgerKing := Card("1", "Burger King", 42)
  const PizzaHut := Card("2", "Pizza Hut", 40)
  const BurgerJoint := Card("3", "The BURGER Joint", 45)
  const Kfc := Card("4", "KFC", 41)
  const Dominos := Card("5", "Domino's", 39)

  lemma BurgerKingMatches() ensures MatchesSearch(BurgerKing, "burger")
  {
    ContainsAt(BurgerKing, "burger", 0);
  }

  lemma BurgerJointMatches() ensures MatchesSearch(BurgerJoint, "burger")
  {
    ContainsAt(BurgerJoint, "burger", 4);
  }

  lemma PizzaHutDoesNotMatch() ensures !MatchesSearch(PizzaHut, "burger") { NoMatchWithoutB(PizzaHut, "burger"); }
  lemma KfcDoesNotMatch() ensures !MatchesSearch(Kfc, "burger") { NoMatchWithoutB(Kfc, "burger"); }
  lemma DominosDoesNotMatch() ensures !MatchesSearch(Dominos, "burger") { NoMatchWithoutB(Dominos, "burger"); }

  /** Searching "burger" keeps the two burger places, in order, whatever
      the case of their names. */
  lemma SearchFixture()
    ensures Search([BurgerKing, PizzaHut, BurgerJoint, Kfc, Dominos], "burger") == [BurgerKing, BurgerJoint]
  {
    BurgerKingMatches();
    BurgerJointMatches();
    PizzaHutDoesNotMatch();
    KfcDoesNotMatch();
    DominosDoesNotMatch();
    SearchKeepsFirstAndThird(BurgerKing, PizzaHut, BurgerJoint, Kfc, Dominos, "burger");
  }
}

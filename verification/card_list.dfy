/** The pure reconciliations App applies to its card list and the like test:
    `Array.prototype.some`, `map` and `filter` written as recursive functions,
    each with a closed-form contract, and lemmas about how they combine. */
module CardList {
  import opened Outcomes
  import opened Entities

  /** `likes.some(i => i._id === uid)`. An absent `uid` (undefined) equals no
      `_id` the server sends, so nothing matches it. */
  function SomeLikeBy(likes: seq<User>, uid: Option<Id>): (r: bool)
    ensures r <==> exists i :: 0 <= i < |likes| && Some(likes[i].id) == uid
  {
    if likes == [] then false
    else Some(likes[0].id) == uid || SomeLikeBy(likes[1..], uid)
  }

  /** The flag `handleCardLike` sends with the request: whether the current
      user is already among the card's likes. */
  function IsLiked(card: Card, me: Profile): (r: bool)
    ensures r <==> me.Fetched? && exists i :: 0 <= i < |card.likes| && card.likes[i].id == me.user.id
  {
    SomeLikeBy(card.likes, ProfileId(me))
  }

  /** The `_id`s of a card list, in order. */
  function Ids(cards: seq<Card>): (r: seq<Id>)
    ensures |r| == |cards|
    ensures forall i :: 0 <= i < |cards| ==> r[i] == cards[i].id
  {
    if cards == [] then [] else [cards[0].id] + Ids(cards[1..])
  }

  /** `cards.map(c => c._id === id ? newCard : c)`. */
  function ReplaceById(cards: seq<Card>, id: Id, newCard: Card): (r: seq<Card>)
    ensures |r| == |cards|
    ensures forall i :: 0 <= i < |cards| && cards[i].id == id ==> r[i] == newCard
    ensures forall i :: 0 <= i < |cards| && cards[i].id != id ==> r[i] == cards[i]
  {
    if cards == [] then []
    else [if cards[0].id == id then newCard else cards[0]] + ReplaceById(cards[1..], id, newCard)
  }

  /** `cards.filter(item => item._id !== id)`. */
  function RemoveById(cards: seq<Card>, id: Id): (r: seq<Card>)
    ensures |r| <= |cards|
    ensures forall c :: c in r <==> c in cards && c.id != id
  {
    if cards == [] then []
    else if cards[0].id == id then RemoveById(cards[1..], id)
    else [cards[0]] + RemoveById(cards[1..], id)
  }

  /** A list in which no card has the given `_id`. */
  predicate NoCardWithId(cards: seq<Card>, id: Id)
  {
    forall i :: 0 <= i < |cards| ==> cards[i].id != id
  }

  /** Replacing an `_id` that is not in the list leaves the list as it was. */
  lemma ReplaceByIdAbsent(cards: seq<Card>, id: Id, newCard: Card)
    requires NoCardWithId(cards, id)
    ensures ReplaceById(cards, id, newCard) == cards
  {
  }

  /** When the server echoes the card's own `_id`, the list keeps its `_id`s:
      same length, same order. */
  lemma ReplaceByIdKeepsIds(cards: seq<Card>, id: Id, newCard: Card)
    requires newCard.id == id
    ensures Ids(ReplaceById(cards, id, newCard)) == Ids(cards)
  {
  }

  /** Applying the same reply twice is the same as applying it once. */
  lemma ReplaceByIdIdempotent(cards: seq<Card>, id: Id, newCard: Card)
    ensures ReplaceById(ReplaceById(cards, id, newCard), id, newCard) == ReplaceById(cards, id, newCard)
  {
  }

  /** Two replies for the same `_id`: the later one wins (last write wins). */
  lemma ReplaceByIdLastWins(cards: seq<Card>, id: Id, first: Card, second: Card)
    requires first.id == id
    ensures ReplaceById(ReplaceById(cards, id, first), id, second) == ReplaceById(cards, id, second)
  {
  }

  /** `filter` keeps the relative order: it distributes over concatenation. */
  lemma {:induction false} RemoveByIdAppend(a: seq<Card>, b: seq<Card>, id: Id)
    ensures RemoveById(a + b, id) == RemoveById(a, id) + RemoveById(b, id)
  {
    if a == [] {
      assert a + b == b;
    } else {
      assert (a + b)[1..] == a[1..] + b;
      RemoveByIdAppend(a[1..], b, id);
    }
  }

  /** Removing an `_id` that is not in the list leaves the list as it was. */
  lemma {:induction false} RemoveByIdAbsent(cards: seq<Card>, id: Id)
    requires NoCardWithId(cards, id)
    ensures RemoveById(cards, id) == cards
  {
    if cards != [] {
      RemoveByIdAbsent(cards[1..], id);
    }
  }

  /** After a removal no card with that `_id` is left, so a second removal of
      the same `_id` changes nothing. */
  lemma RemoveByIdIdempotent(cards: seq<Card>, id: Id)
    ensures NoCardWithId(RemoveById(cards, id), id)
    ensures RemoveById(RemoveById(cards, id), id) == RemoveById(cards, id)
  {
  }

  /** Removal counts: the list shrinks by exactly the number of cards that
      carry the `_id`. */
  lemma {:induction false} RemoveByIdCount(cards: seq<Card>, id: Id)
    ensures |RemoveById(cards, id)| == |cards| - multiset(Ids(cards))[id]
  {
    if cards != [] {
      assert Ids(cards) == [cards[0].id] + Ids(cards[1..]);
      RemoveByIdCount(cards[1..], id);
    }
  }

  /** Deleting a card after a like reply for it was applied gives the same list
      as deleting it straight away, provided the reply keeps the card's `_id`. */
  lemma {:induction false} RemoveAfterReplace(cards: seq<Card>, id: Id, newCard: Card)
    requires newCard.id == id
    ensures RemoveById(ReplaceById(cards, id, newCard), id) == RemoveById(cards, id)
  {
    if cards != [] {
      RemoveAfterReplace(cards[1..], id, newCard);
    }
  }

  /** Deleting a card that was just prepended under an `_id` the list did not
      hold gives back the list as it was before the add. */
  lemma AddThenDeleteFresh(cards: seq<Card>, c: Card)
    requires NoCardWithId(cards, c.id)
    ensures RemoveById([c] + cards, c.id) == cards
  {
    RemoveByIdAbsent(cards, c.id);
  }

  /** One step of removal over a prepended card. */
  lemma RemoveAfterPrepend(cards: seq<Card>, newCard: Card, id: Id)
    ensures RemoveById([newCard] + cards, id)
         == if newCard.id == id then RemoveById(cards, id) else [newCard] + RemoveById(cards, id)
  {
  }
}

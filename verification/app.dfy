/** The state held by the `App` component and the handlers that change it.
    Every asynchronous completion is one atomic step whose server outcome is
    a parameter; a failure is only logged, so it leaves every field as it was. */
module AppState {
  import opened Outcomes
  import opened Entities
  import opened CardList

  class App {
    var isEditProfilePopupOpen: bool
    var isAddPlacePopupOpen: bool
    var isEditAvatarPopupOpen: bool
    var selectedCard: Option<Card>
    var currentUser: Profile
    var cards: seq<Card>

    /** No popup open and no card shown in full view. */
    ghost predicate AllPopupsClosed()
      reads this
    {
      !isEditProfilePopupOpen && !isAddPlacePopupOpen && !isEditAvatarPopupOpen && selectedCard == None
    }

    /** The `useState` initial values: every popup closed, no selection, an
        empty profile and an empty card list. */
    constructor ()
      ensures AllPopupsClosed()
      ensures currentUser == Empty && cards == []
    {
      isEditProfilePopupOpen := false;
      isAddPlacePopupOpen := false;
      isEditAvatarPopupOpen := false;
      selectedCard := None;
      currentUser := Empty;
      cards := [];
    }

    /** Completion of the startup `Promise.all` over the card list and the
        profile: both values are stored only when both requests succeeded. */
    method LoadInitialData(cardsReply: Outcome<seq<Card>>, userReply: Outcome<User>)
      modifies this
      ensures cardsReply.Success? && userReply.Success? ==>
                cards == cardsReply.value && currentUser == Fetched(userReply.value)
      ensures !(cardsReply.Success? && userReply.Success?) ==>
                cards == old(cards) && currentUser == old(currentUser)
      ensures isEditProfilePopupOpen == old(isEditProfilePopupOpen)
      ensures isAddPlacePopupOpen == old(isAddPlacePopupOpen)
      ensures isEditAvatarPopupOpen == old(isEditAvatarPopupOpen)
      ensures selectedCard == old(selectedCard)
    {
      if cardsReply.Success? && userReply.Success? {
        cards := cardsReply.value;
        currentUser := Fetched(userReply.value);
      }
    }

    method HandleEditAvatarClick()
      modifies this
      ensures isEditAvatarPopupOpen
      ensures isEditProfilePopupOpen == old(isEditProfilePopupOpen)
      ensures isAddPlacePopupOpen == old(isAddPlacePopupOpen)
      ensures selectedCard == old(selectedCard)
      ensures currentUser == old(currentUser) && cards == old(cards)
    {
      isEditAvatarPopupOpen := true;
    }

    method HandleEditProfileClick()
      modifies this
      ensures isEditProfilePopupOpen
      ensures isAddPlacePopupOpen == old(isAddPlacePopupOpen)
      ensures isEditAvatarPopupOpen == old(isEditAvatarPopupOpen)
      ensures selectedCard == old(selectedCard)
      ensures currentUser == old(currentUser) && cards == old(cards)
    {
      isEditProfilePopupOpen := true;
    }

    method HandleAddPlaceClick()
      modifies this
      ensures isAddPlacePopupOpen
      ensures isEditProfilePopupOpen == old(isEditProfilePopupOpen)
      ensures isEditAvatarPopupOpen == old(isEditAvatarPopupOpen)
      ensures selectedCard == old(selectedCard)
      ensures currentUser == old(currentUser) && cards == old(cards)
    {
      isAddPlacePopupOpen := true;
    }

    /** Closes every popup and clears the selection; the data is untouched. */
    method CloseAllPopups()
      modifies this
      ensures AllPopupsClosed()
      ensures currentUser == old(currentUser) && cards == old(cards)
    {
      isEditProfilePopupOpen := false;
      isAddPlacePopupOpen := false;
      isEditAvatarPopupOpen := false;
      selectedCard := None;
    }

    method HandleCardClick(card: Card)
      modifies this
      ensures selectedCard == Some(card)
      ensures isEditProfilePopupOpen == old(isEditProfilePopupOpen)
      ensures isAddPlacePopupOpen == old(isAddPlacePopupOpen)
      ensures isEditAvatarPopupOpen == old(isEditAvatarPopupOpen)
      ensures currentUser == old(currentUser) && cards == old(cards)
    {
      selectedCard := Some(card);
    }

    /** Completion of `editProfileInfo`: the profile is replaced wholesale by
        the server's record and every popup closes. */
    method HandleEditProfileChange(reply: Outcome<User>)
      modifies this
      ensures reply.Success? ==> currentUser == Fetched(reply.value) && AllPopupsClosed()
      ensures reply.Failure? ==> currentUser == old(currentUser)
      ensures reply.Failure? ==> isEditProfilePopupOpen == old(isEditProfilePopupOpen)
                                 && isAddPlacePopupOpen == old(isAddPlacePopupOpen)
                                 && isEditAvatarPopupOpen == old(isEditAvatarPopupOpen)
                                 && selectedCard == old(selectedCard)
      ensures cards == old(cards)
    {
      if reply.Success? {
        currentUser := Fetched(reply.value);
        CloseAllPopups();
      }
    }

    /** Completion of `changeAvatar`: same reconciliation as a profile edit. */
    method HandleEditAvatar(reply: Outcome<User>)
      modifies this
      ensures reply.Success? ==> currentUser == Fetched(reply.value) && AllPopupsClosed()
      ensures reply.Failure? ==> currentUser == old(currentUser)
      ensures reply.Failure? ==> isEditProfilePopupOpen == old(isEditProfilePopupOpen)
                                 && isAddPlacePopupOpen == old(isAddPlacePopupOpen)
                                 && isEditAvatarPopupOpen == old(isEditAvatarPopupOpen)
                                 && selectedCard == old(selectedCard)
      ensures cards == old(cards)
    {
      if reply.Success? {
        currentUser := Fetched(reply.value);
        CloseAllPopups();
      }
    }

    /** A like click and the completion of `changeLikeCardStatus`. Returns the
        flag sent with the request, computed from the clicked card's `likes`
        and the current user; on success every card of that `_id` becomes the
        returned card. Popups and the profile never change. */
    method HandleCardLike(card: Card, reply: Outcome<Card>) returns (isLiked: bool)
      modifies this
      ensures isLiked == IsLiked(card, old(currentUser))
      ensures reply.Success? ==> cards == ReplaceById(old(cards), card.id, reply.value)
      ensures reply.Failure? ==> cards == old(cards)
      ensures currentUser == old(currentUser)
      ensures isEditProfilePopupOpen == old(isEditProfilePopupOpen)
      ensures isAddPlacePopupOpen == old(isAddPlacePopupOpen)
      ensures isEditAvatarPopupOpen == old(isEditAvatarPopupOpen)
      ensures selectedCard == old(selectedCard)
    {
      isLiked := SomeLikeBy(card.likes, ProfileId(currentUser));
      if reply.Success? {
        cards := ReplaceById(cards, card.id, reply.value);
      }
    }

    /** Completion of `deleteCard`: on success every card of that `_id` is
        dropped, the rest keep their order. Popups and the profile never change. */
    method HandleCardDelete(card: Card, reply: Outcome<()>)
      modifies this
      ensures reply.Success? ==> cards == RemoveById(old(cards), card.id)
      ensures reply.Success? ==> NoCardWithId(cards, card.id)
      ensures reply.Failure? ==> cards == old(cards)
      ensures currentUser == old(currentUser)
      ensures isEditProfilePopupOpen == old(isEditProfilePopupOpen)
      ensures isAddPlacePopupOpen == old(isAddPlacePopupOpen)
      ensures isEditAvatarPopupOpen == old(isEditAvatarPopupOpen)
      ensures selectedCard == old(selectedCard)
    {
      if reply.Success? {
        cards := RemoveById(cards, card.id);
        RemoveByIdIdempotent(old(cards), card.id);
      }
    }

    /** Completion of `postCard`: the returned card goes in front of the list,
        without any check of its `_id`, and every popup closes. */
    method HandleAddPlaceSubmit(reply: Outcome<Card>)
      modifies this
      ensures reply.Success? ==> cards == [reply.value] + old(cards) && AllPopupsClosed()
      ensures reply.Failure? ==> cards == old(cards)
      ensures reply.Failure? ==> isEditProfilePopupOpen == old(isEditProfilePopupOpen)
                                 && isAddPlacePopupOpen == old(isAddPlacePopupOpen)
                                 && isEditAvatarPopupOpen == old(isEditAvatarPopupOpen)
                                 && selectedCard == old(selectedCard)
      ensures currentUser == old(currentUser)
    {
      if reply.Success? {
        cards := [reply.value] + cards;
        CloseAllPopups();
      }
    }
  }

  /** Mounting the component: the initial state followed by the startup load.
      Unless both requests succeed, the view stays empty. */
  method Mount(cardsReply: Outcome<seq<Card>>, userReply: Outcome<User>) returns (app: App)
    ensures fresh(app)
    ensures app.AllPopupsClosed()
    ensures cardsReply.Success? && userReply.Success? ==>
              app.cards == cardsReply.value && app.currentUser == Fetched(userReply.value)
    ensures !(cardsReply.Success? && userReply.Success?) ==>
              app.cards == [] && app.currentUser == Empty
  {
    app := new App();
    app.LoadInitialData(cardsReply, userReply);
  }

  /** Deleting `x` from `[x, z, x, y]` drops both copies of `x`. */
  lemma DeleteEveryCopy(x: Card, y: Card, z: Card)
    requires x.id == "x" && y.id == "y" && z.id == "z"
    ensures RemoveById([x, z, x, y], "x") == [z, y]
  {
    assert [x, z, x, y] == [x] + [z, x, y];
    assert [z, x, y] == [z] + [x, y];
    assert [x, y] == [x] + [y];
    RemoveAfterPrepend([y], x, "x");
    RemoveAfterPrepend([x, y], z, "x");
    RemoveAfterPrepend([z, x, y], x, "x");
  }

  /** A session driven through the handlers, showing what the component
      does and does not guarantee. */
  method Session(me: User, x: Card, y: Card, z: Card)
    requires x.id == "x" && y.id == "y" && z.id == "z" && x.likes == []
  {
    var app := Mount(Success([x, y]), Success(me));
    assert app.cards == [x, y];

    // Nobody likes x yet, so the flag sent with the request is false.
    var flag := app.HandleCardLike(x, Failure);
    assert !flag && app.cards == [x, y];

    // Two popups can be open at once: each open handler sets only its flag.
    app.HandleEditProfileClick();
    app.HandleAddPlaceClick();
    assert app.isEditProfilePopupOpen && app.isAddPlacePopupOpen;

    // A failed edit keeps the popup open and the profile as it was.
    app.HandleEditProfileChange(Failure);
    assert app.isEditProfilePopupOpen && app.currentUser == Fetched(me);

    // A new card goes in front and every popup closes.
    app.HandleAddPlaceSubmit(Success(z));
    assert app.cards == [z, x, y] && app.AllPopupsClosed();

    // Nothing stops a second card with an existing `_id` from being added.
    app.HandleAddPlaceSubmit(Success(x));
    assert app.cards == [x, z, x, y];

    // A failed delete keeps the cards; a successful one drops every copy.
    app.HandleCardDelete(x, Failure);
    assert app.cards == [x, z, x, y];
    DeleteEveryCopy(x, y, z);
    app.HandleCardDelete(x, Success(()));
    assert app.cards == [z, y];
  }
}

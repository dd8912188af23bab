# mesto-react: the App component's state, modelled in Dafny

`App` is the root component of a photo-sharing page ("Mesto"). It holds the
list of place cards, the current user's profile, one open flag for each of
the edit-profile, add-place and edit-avatar popups, and the card shown in the
full-size image popup. User actions flip those flags; replies from the remote
service are reconciled into the card list and the profile.

The model treats the component as a small state machine:

- `outcomes.dfy` (module `Outcomes`): `Option`, and `Outcome<T>` =
  `Success(value)` | `Failure`, the way one request to the service settles.
- `entities.dfy` (module `Entities`): users, cards, and the profile, which is
  the empty object `{}` until the startup load stores a user record.
- `card_list.dfy` (module `CardList`): the pure list updates App applies:
  the like test (`some`), replace by `_id` (`map`), remove by `_id`
  (`filter`), with lemmas on how they combine.
- `app.dfy` (module `AppState`): class `App`, with the component's state as
  fields and one method per handler. Each asynchronous completion is one
  atomic method call that takes the server's outcome as a parameter. On
  `Failure` the handler only logs, so every field keeps its value, and an
  open popup stays open. `Mount` is the initial state followed by the
  startup load. `Session` drives a run through the handlers.

## What the code does not guarantee

- Popups are not mutually exclusive: each open handler sets only its own flag (src/components/App.js:39-47), so two popups can be open at once (`Session` shows it).
- The "Вы уверены?" confirmation popup has no open state at all (src/components/App.js:147-160).
- Card `_id`s are not kept unique: `postCard`'s reply is prepended unchecked (src/components/App.js:110), and the `filter` then drops every copy of an `_id` (src/components/App.js:96-100).
- A like reply for an `_id` that is not in the list is a silent no-op: the `map` matches nothing and nothing is logged (src/components/App.js:86).
- The flag sent with a like request is `isLiked`, the current like state, so it is `false` for a card nobody likes (src/components/App.js:81-84).

## Model

| member | source | states |
|---|---|---|
| `CardList.SomeLikeBy` | src/components/App.js:81 | `likes.some(i => i._id === uid)` is true exactly when some like entry has `_id` equal to `uid`; an undefined `uid` matches nothing |
| `CardList.IsLiked` | src/components/App.js:81-84 | the flag sent to `changeLikeCardStatus` is true exactly when the profile is loaded and some entry of `card.likes` has the current user's `_id` |
| `Entities.ProfileId` | src/components/App.js:23 | `currentUser._id` is defined exactly when a profile record has been stored, and is that record's `_id` |
| `CardList.ReplaceById` | src/components/App.js:86 | `map`: same length and order; every card with the `_id` becomes the new card, every other card is unchanged |
| `CardList.RemoveById` | src/components/App.js:96-100 | `filter`: no longer than before, and a card is in the result exactly when it was in the list and has a different `_id`; order and copies are pinned down by `RemoveByIdAppend` and `RemoveByIdCount` |
| `CardList.ReplaceByIdAbsent` | src/components/App.js:86 | a reply for an `_id` not in the list leaves the list unchanged |
| `CardList.ReplaceByIdKeepsIds` | src/components/App.js:86 | when the reply keeps the card's `_id`, the list's sequence of `_id`s is unchanged |
| `CardList.ReplaceByIdIdempotent` | src/components/App.js:86 | applying the same like reply twice equals applying it once |
| `CardList.ReplaceByIdLastWins` | src/components/App.js:83-86 | two like replies for one `_id`, when the earlier reply keeps the `_id`: the list ends as if only the later one had arrived |
| `CardList.RemoveByIdAppend` | src/components/App.js:96-100 | removal keeps relative order: it distributes over concatenation |
| `CardList.RemoveByIdAbsent` | src/components/App.js:96-100 | removing an `_id` that no card has leaves the list unchanged |
| `CardList.RemoveByIdIdempotent` | src/components/App.js:96-100 | after removal no card has that `_id`, and removing it again changes nothing |
| `CardList.RemoveByIdCount` | src/components/App.js:96-100 | the list shrinks by exactly the number of cards carrying the `_id` |
| `CardList.RemoveAfterReplace` | src/components/App.js:79-100 | deleting a card after a like reply for it (same `_id`) gives the same list as deleting it directly |
| `CardList.AddThenDeleteFresh` | src/components/App.js:96-110 | prepending a card whose `_id` the list does not hold and then deleting that `_id` gives back the list as it was |
| `AppState.DeleteEveryCopy` | src/components/App.js:96-100 | deleting `_id` "x" from a list holding two cards with that `_id` drops both and keeps the others in order |
| `AppState.App.constructor` | src/components/App.js:15-24 | initial state: all popups closed, no selected card, empty profile, empty card list |
| `AppState.App.LoadInitialData` | src/components/App.js:27-36 | if both fetches succeed, `cards` and `currentUser` are the fetched values; otherwise both keep their values; popups untouched |
| `AppState.Mount` | src/components/App.js:13-36 | after mounting, unless both fetches succeeded, the card list is empty and the profile is `{}`; no popup is open |
| `AppState.App.HandleEditAvatarClick` | src/components/App.js:39-41 | sets only the edit-avatar flag; every other field unchanged |
| `AppState.App.HandleEditProfileClick` | src/components/App.js:42-44 | sets only the edit-profile flag; every other field unchanged |
| `AppState.App.HandleAddPlaceClick` | src/components/App.js:45-47 | sets only the add-place flag; every other field unchanged |
| `AppState.App.CloseAllPopups` | src/components/App.js:48-53 | all three flags false and no selected card; cards and profile unchanged |
| `AppState.App.HandleCardClick` | src/components/App.js:54-56 | sets only `selectedCard` to the clicked card |
| `AppState.App.HandleEditProfileChange` | src/components/App.js:57-67 | success: profile replaced wholesale by the reply, all popups closed; failure: profile and popups unchanged; cards unchanged either way |
| `AppState.App.HandleEditAvatar` | src/components/App.js:68-78 | success: profile replaced wholesale by the reply, all popups closed; failure: profile and popups unchanged; cards unchanged either way |
| `AppState.App.HandleCardLike` | src/components/App.js:79-91 | returns the flag sent (is the user already among the card's likes); success: cards become `ReplaceById` of the old list; failure: cards unchanged; profile and popups never change |
| `AppState.App.HandleCardDelete` | src/components/App.js:92-105 | success: cards become `RemoveById` of the old list and no card of that `_id` remains; failure: cards unchanged; profile and popups never change |
| `AppState.App.HandleAddPlaceSubmit` | src/components/App.js:106-116 | success: the reply followed by the previous list, all popups closed; failure: cards and popups unchanged; profile never changes |

## Left out

- Rendering and component wiring (src/components/App.js:117-162): JSX with no logic of its own.
- The `api` module and its HTTP calls: each call is represented only by its `Success` or `Failure` outcome. The request payloads (`{ name, about }`, the avatar link, the new place) go only to the service, so the handlers take just the reply.
- The meaning of the flag sent to `changeLikeCardStatus`: that is defined in `api.js`, which is not part of this model.
- `console.log` on failure: I/O; a failure is modelled as "no state change".
- React hook mechanics, promise scheduling and interleaving of requests in flight. Each completion is one atomic step on the state at that moment. `handleAddPlaceSubmit` prepends to the `cards` captured when the handler was created (src/components/App.js:110), not through a functional updater. The stale-closure race this allows is not modelled.
- `CurrentUserContext` and the child popups (`EditProfilePopup`, `EditAvatarPopup`, `AddPlacePopup`, `PopupWithForm`, `ImagePopup`): presentational, not part of this model.
- Card fields other than `_id`, `name`, `link`, `owner` and `likes` (such as `createdAt`), and user fields other than `_id`, `name`, `about` and `avatar`: App never reads them.

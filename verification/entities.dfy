/** The records the component holds, as the remote service returns them. */
module Entities {
  import opened Outcomes

  /** The `_id` of a user or a card. */
  type Id = string

  /** A user record: the current user's profile, a card's owner, a like. */
  datatype User = User(id: Id, name: string, about: string, avatar: string)

  /** `currentUser`: the empty object `{}` until a profile arrives, then the
      record the server last returned. */
  datatype Profile = Empty | Fetched(user: User)

  /** A place card; `likes` lists the users who like it, in server order. */
  datatype Card = Card(id: Id, name: string, link: string, owner: User, likes: seq<User>)

  /** `currentUser._id`: absent (undefined) while the profile is still `{}`. */
  function ProfileId(p: Profile): (r: Option<Id>)
    ensures r.Some? <==> p.Fetched?
    ensures p.Fetched? ==> r.value == p.user.id
  {
    match p
    case Empty => None
    case Fetched(u) => Some(u.id)
  }
}

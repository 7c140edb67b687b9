/**
 * The `user` slice of the store (src/lib/store/features/userSlice.ts): the
 * current user's profile, with the `setUser` and `clearUser` reducers.
 */
module UserSlice {
  import opened Js

  /** `User`; `coverImage` is the one optional field. */
  datatype User = User(
    id: string,
    username: string,
    email: string,
    fullName: string,
    avatar: string,
    coverImage: Option<string>,
    watchHistory: seq<string>,
    createdAt: string,
    updatedAt: string)

  datatype UserAction = SetUser(payload: User) | ClearUser

  /** The slice's `initialState`: no `coverImage` key at all. */
  const InitialUser: User := User("", "", "", "", "", None, [], "", "")

  /** What `clearUser` writes: `coverImage` becomes `""`, not absent. */
  const ClearedUser: User := User("", "", "", "", "", Some(""), [], "", "")

  /** One reducer step: both reducers overwrite all nine fields. */
  function Reduce(s: User, a: UserAction): (r: User)
    ensures a.SetUser? ==> r == a.payload
    ensures a.ClearUser? ==>
              r.id == r.username == r.email == r.fullName == r.avatar == "" &&
              r.coverImage == Some("") && r.watchHistory == [] &&
              r.createdAt == r.updatedAt == ""
  {
    match a
    case SetUser(p) =>
      s.(id := p.id, username := p.username, email := p.email, fullName := p.fullName,
         avatar := p.avatar, coverImage := p.coverImage, watchHistory := p.watchHistory,
         createdAt := p.createdAt, updatedAt := p.updatedAt)
    case ClearUser =>
      s.(id := "", username := "", email := "", fullName := "", avatar := "",
         coverImage := Some(""), watchHistory := [], createdAt := "", updatedAt := "")
  }

  /** The slice after a run of dispatched actions, first action first. */
  function ReduceAll(s: User, actions: seq<UserAction>): User
    decreases |actions|
  {
    if actions == [] then s else ReduceAll(Reduce(s, actions[0]), actions[1..])
  }

  /** Since every reducer overwrites every field, the last action alone decides the slice. */
  lemma {:induction false} LastActionWins(s: User, actions: seq<UserAction>)
    requires actions != []
    ensures ReduceAll(s, actions) == Reduce(s, actions[|actions| - 1])
    decreases |actions|
  {
    if |actions| > 1 {
      LastActionWins(Reduce(s, actions[0]), actions[1..]);
    }
  }

  /** `setUser(p)` twice is `setUser(p)` once. */
  lemma SetUserIdempotent(s: User, p: User)
    ensures Reduce(Reduce(s, SetUser(p)), SetUser(p)) == Reduce(s, SetUser(p))
  {
  }

  /** `clearUser` after `setUser` does not depend on the payload. */
  lemma ClearAfterSetUser(s: User, p: User, q: User)
    ensures Reduce(Reduce(s, SetUser(p)), ClearUser) == Reduce(Reduce(s, SetUser(q)), ClearUser) == ClearedUser
  {
  }

  /** The cleared state is the initial state except that `coverImage` is `""`. */
  lemma ClearedDiffersFromInitial()
    ensures ClearedUser != InitialUser
    ensures ClearedUser == InitialUser.(coverImage := Some(""))
  {
  }

  /** The slice's state, updated field by field in place by the reducers. */
  class UserStore {
    var id: string
    var username: string
    var email: string
    var fullName: string
    var avatar: string
    var coverImage: Option<string>
    var watchHistory: seq<string>
    var createdAt: string
    var updatedAt: string

    function State(): User
      reads this
    {
      User(id, username, email, fullName, avatar, coverImage, watchHistory, createdAt, updatedAt)
    }

    /** The slice as the store creates it, from `initialState`. */
    constructor ()
      ensures State() == InitialUser
    {
      id, username, email, fullName, avatar := "", "", "", "", "";
      coverImage, watchHistory := None, [];
      createdAt, updatedAt := "", "";
    }

    /** The `setUser` reducer. */
    method SetUser(payload: User)
      modifies this
      ensures State() == Reduce(old(State()), UserAction.SetUser(payload))
    {
      id := payload.id;
      username := payload.username;
      email := payload.email;
      fullName := payload.fullName;
      avatar := payload.avatar;
      coverImage := payload.coverImage;
      watchHistory := payload.watchHistory;
      createdAt := payload.createdAt;
      updatedAt := payload.updatedAt;
    }

    /** The `clearUser` reducer. */
    method ClearUser()
      modifies this
      ensures State() == Reduce(old(State()), UserAction.ClearUser)
    {
      id := "";
      username := "";
      email := "";
      fullName := "";
      avatar := "";
      coverImage := Some("");
      watchHistory := [];
      createdAt := "";
      updatedAt := "";
    }
  }
}

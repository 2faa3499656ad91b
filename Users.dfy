/** The user service (UserService/Services/UserService.cs): guarded changes to
    the user repository, modelled as a map from id to user.

    The pure functions `Add`, `Update` and `Delete` state what one call does to
    the map; the class `UserService` performs the calls step by step and is
    proved against them. */
module Users {
  import opened Shared

  /** A user as the service reads it; a null `Name` or `Email` is `None`. */
  datatype User = User(id: int32, name: Option<string>, email: Option<string>)

  const InvalidUserData: string := "User data is invalid"
  const InvalidUserId: string := "Invalid user ID"
  const UserNotFound: string := "User not found"

  /** The content checks that adding and updating share; neither reads the id. */
  predicate HasValidContent(u: User) {
    !IsNullOrWhiteSpace(u.name) && !IsNullOrWhiteSpace(u.email)
  }

  /** What `AddUserAsync` accepts: a non-null user with a name and an email. */
  predicate IsValidNewUser(user: Option<User>) {
    user.Some? && HasValidContent(user.value)
  }

  /** What `UpdateUserAsync` accepts before it looks the user up: also a non-zero id. */
  predicate IsValidUserUpdate(user: Option<User>) {
    user.Some? && user.value.id != 0 && HasValidContent(user.value)
  }

  /** The shape every repository the service produces keeps: each user is filed
      under its own id and has a name and an email. */
  ghost predicate Consistent(users: map<int32, User>) {
    forall id | id in users :: users[id].id == id && HasValidContent(users[id])
  }

  /** `GetAllUsersAsync`: every stored user, and nothing else. */
  function GetAllUsers(users: map<int32, User>): (all: set<User>)
    ensures forall id | id in users :: users[id] in all
    ensures forall u | u in all :: exists id | id in users :: users[id] == u
  {
    users.Values
  }

  /** `GetUserByIdAsync`: the stored user, or null exactly when the id is absent. */
  function GetUserById(users: map<int32, User>, id: int32): (r: Option<User>)
    ensures r.Some? <==> id in users
    ensures r.Some? ==> r.value == users[id]
  {
    if id in users then Some(users[id]) else None
  }

  /** `UserExistsAsync`: the lookup did not return null. */
  predicate UserExists(users: map<int32, User>, id: int32)
    ensures UserExists(users, id) <==> id in users
  {
    GetUserById(users, id).Some?
  }

  /** `AddUserAsync`: reject an invalid user with `ArgumentException` and change
      nothing; otherwise store it and touch nothing else. */
  function Add(users: map<int32, User>, user: Option<User>): (r: Step<map<int32, User>>)
    ensures r.completion.Completed? <==> IsValidNewUser(user)
    ensures !IsValidNewUser(user) ==> r == Step(Threw(ArgumentException(InvalidUserData)), users)
    ensures IsValidNewUser(user) ==> r.after == users[user.value.id := user.value]
  {
    if !IsValidNewUser(user) then
      Step(Threw(ArgumentException(InvalidUserData)), users)
    else
      Step(Completed, users[user.value.id := user.value])
  }

  /** `UpdateUserAsync`: validation (including the zero id) first, then the
      existence check, and only then the repository. */
  function Update(users: map<int32, User>, user: Option<User>): (r: Step<map<int32, User>>)
    ensures r.completion == Threw(ArgumentException(InvalidUserData)) <==> !IsValidUserUpdate(user)
    ensures r.completion == Threw(KeyNotFoundException(UserNotFound))
      <==> IsValidUserUpdate(user) && user.value.id !in users
    ensures r.completion.Completed? <==> IsValidUserUpdate(user) && user.value.id in users
    ensures r.completion.Threw? ==> r.after == users
    ensures r.completion.Completed? ==> r.after == users[user.value.id := user.value]
  {
    if !IsValidUserUpdate(user) then
      Step(Threw(ArgumentException(InvalidUserData)), users)
    else if !UserExists(users, user.value.id) then
      Step(Threw(KeyNotFoundException(UserNotFound)), users)
    else
      Step(Completed, users[user.value.id := user.value])
  }

  /** `DeleteUserAsync`: a zero id is an `ArgumentException`, an absent id a
      `KeyNotFoundException`; otherwise exactly that user is removed. */
  function Delete(users: map<int32, User>, id: int32): (r: Step<map<int32, User>>)
    ensures r.completion == Threw(ArgumentException(InvalidUserId)) <==> id == 0
    ensures r.completion == Threw(KeyNotFoundException(UserNotFound)) <==> id != 0 && id !in users
    ensures r.completion.Completed? <==> id != 0 && id in users
    ensures r.completion.Threw? ==> r.after == users
    ensures r.completion.Completed? ==>
      && r.after.Keys == users.Keys - {id}
      && (forall k | k in r.after :: r.after[k] == users[k])
  {
    if id == 0 then
      Step(Threw(ArgumentException(InvalidUserId)), users)
    else if !UserExists(users, id) then
      Step(Threw(KeyNotFoundException(UserNotFound)), users)
    else
      Step(Completed, users - {id})
  }

  /** Whether a user may be added does not depend on its id. */
  lemma AddIgnoresId(users: map<int32, User>, u: User, id: int32)
    ensures Add(users, Some(u)).completion == Add(users, Some(u.(id := id))).completion
  {
  }

  /** An invalid update is refused before the repository is consulted: the
      same `ArgumentException` whatever it holds, even for an absent id. */
  lemma InvalidUpdateIgnoresStore(users1: map<int32, User>, users2: map<int32, User>, user: Option<User>)
    requires !IsValidUserUpdate(user)
    ensures Update(users1, user).completion == Update(users2, user).completion
    ensures Update(users1, user).completion.Threw? && Update(users1, user).completion.fault.ArgumentException?
  {
  }

  /** Deleting a freshly added user restores the repository. */
  lemma DeleteUndoesAdd(users: map<int32, User>, u: User)
    requires HasValidContent(u) && u.id != 0 && u.id !in users
    ensures Delete(Add(users, Some(u)).after, u.id) == Step(Completed, users)
  {
    assert users[u.id := u] - {u.id} == users;
  }

  /** One request to the service, as the controllers issue them. */
  datatype Request =
    | AddRequest(user: Option<User>)
    | UpdateRequest(user: Option<User>)
    | DeleteRequest(id: int32)

  function Serve(users: map<int32, User>, req: Request): (r: Step<map<int32, User>>) {
    match req
    case AddRequest(user) => Add(users, user)
    case UpdateRequest(user) => Update(users, user)
    case DeleteRequest(id) => Delete(users, id)
  }

  /** The repository after serving a run of requests in order. */
  function ServeAll(users: map<int32, User>, reqs: seq<Request>): (r: map<int32, User>)
    decreases |reqs|
  {
    if reqs == [] then users else ServeAll(Serve(users, reqs[0]).after, reqs[1..])
  }

  /** Consistency holds along any run: no sequence of calls files a user under
      another id or stores one without a name or an email. */
  lemma {:induction false} ServeAllKeepsConsistent(users: map<int32, User>, reqs: seq<Request>)
    requires Consistent(users)
    ensures Consistent(ServeAll(users, reqs))
    decreases |reqs|
  {
    if reqs != [] {
      var next := Serve(users, reqs[0]).after;
      assert Consistent(next);
      ServeAllKeepsConsistent(next, reqs[1..]);
    }
  }

  /** The service object: the repository's contents. */
  class UserService {
    var users: map<int32, User>

    ghost predicate Valid()
      reads this
    {
      Consistent(users)
    }

    constructor (stored: map<int32, User>)
      ensures users == stored
    {
      users := stored;
    }

    method GetAllUsersAsync() returns (all: set<User>)
      ensures forall id | id in users :: users[id] in all
      ensures forall u | u in all :: exists id | id in users :: users[id] == u
    {
      all := GetAllUsers(users);
    }

    method GetUserByIdAsync(id: int32) returns (user: Option<User>)
      ensures user.Some? <==> id in users
      ensures user.Some? ==> user.value == users[id]
    {
      user := if id in users then Some(users[id]) else None;
    }

    method UserExistsAsync(id: int32) returns (found: bool)
      ensures found <==> id in users
    {
      var user := GetUserByIdAsync(id);
      found := user.Some?;
    }

    method AddUserAsync(user: Option<User>) returns (c: Completion)
      modifies this
      ensures Step(c, users) == Add(old(users), user)
      ensures old(Valid()) ==> Valid()
    {
      if user.None? || IsNullOrWhiteSpace(user.value.name) || IsNullOrWhiteSpace(user.value.email) {
        return Threw(ArgumentException(InvalidUserData));
      }
      users := users[user.value.id := user.value];
      c := Completed;
    }

    method UpdateUserAsync(user: Option<User>) returns (c: Completion)
      modifies this
      ensures Step(c, users) == Update(old(users), user)
      ensures old(Valid()) ==> Valid()
    {
      if user.None? || user.value.id == 0 || IsNullOrWhiteSpace(user.value.name)
        || IsNullOrWhiteSpace(user.value.email)
      {
        return Threw(ArgumentException(InvalidUserData));
      }
      var found := UserExistsAsync(user.value.id);
      if !found {
        return Threw(KeyNotFoundException(UserNotFound));
      }
      users := users[user.value.id := user.value];
      c := Completed;
    }

    method DeleteUserAsync(id: int32) returns (c: Completion)
      modifies this
      ensures Step(c, users) == Delete(old(users), id)
      ensures old(Valid()) ==> Valid()
    {
      if id == 0 {
        return Threw(ArgumentException(InvalidUserId));
      }
      var found := UserExistsAsync(id);
      if !found {
        return Threw(KeyNotFoundException(UserNotFound));
      }
      users := users - {id};
      c := Completed;
    }
  }
}

/** The users controller (UserService/Controllers/UsersController.cs): the
    same shape as the orders controller, over the user service. Each action is
    composed with the service's model, so it states both the response and the
    repository it leaves. */
module UsersApi {
  import opened Shared
  import opened Http
  import Users

  const UserIdMismatch: string := "User ID mismatch"

  /** GET api/users: 200 with every stored user. */
  function GetUsers(users: map<int32, Users.User>): (r: ActionResult<set<Users.User>>)
    ensures r.StatusCode() == 200 && r.Ok?
    ensures forall id | id in users :: users[id] in r.value
    ensures forall u | u in r.value :: exists id | id in users :: users[id] == u
  {
    Ok(Users.GetAllUsers(users))
  }

  /** GET api/users/{id}: 404 exactly when the service returns null, else 200 with the user. */
  function GetUserById(users: map<int32, Users.User>, id: int32): (r: ActionResult<Users.User>)
    ensures r.StatusCode() == 404 <==> id !in users
    ensures r.StatusCode() == 200 <==> id in users
    ensures r.Ok? ==> r.value == users[id]
    ensures r.NotFound? ==> r.detail == None
  {
    var user := Users.GetUserById(users, id);
    if user.None? then NotFound(None) else Ok(user.value)
  }

  /** POST api/users: 201 pointing at the user's id when it has a name and an
      email, else 400 with the repository untouched. */
  function AddUser(users: map<int32, Users.User>, user: Users.User): (r: Exchange<Users.User, map<int32, Users.User>>)
    ensures r.result.StatusCode() == 201 <==> Users.HasValidContent(user)
    ensures r.result.StatusCode() == 400 <==> IsNullOrWhiteSpace(user.name) || IsNullOrWhiteSpace(user.email)
    ensures r.result.CreatedAtAction? ==>
      r.result.actionName == "GetUserById" && r.result.routeId == user.id && r.result.value == user
    ensures r.result.StatusCode() == 201 ==> r.after == users[user.id := user]
    ensures r.result.StatusCode() == 400 ==> r.after == users
  {
    var step := Users.Add(users, Some(user));
    Exchange(CreatedOrBadRequest(step.completion, "GetUserById", user.id, user), step.after)
  }

  /** PUT api/users/{id}: a route id that differs from the body's is 400
      without calling the service; otherwise 204, 400 or 404 from the service. */
  function UpdateUser(users: map<int32, Users.User>, id: int32, user: Users.User): (r: Exchange<Users.User, map<int32, Users.User>>)
    ensures id != user.id ==> r == Exchange(BadRequest(UserIdMismatch), users)
    ensures r.result.StatusCode() == 400 <==> id != user.id || !Users.IsValidUserUpdate(Some(user))
    ensures r.result.StatusCode() == 404 <==> id == user.id && Users.IsValidUserUpdate(Some(user)) && id !in users
    ensures r.result.StatusCode() == 204 <==> id == user.id && Users.IsValidUserUpdate(Some(user)) && id in users
    ensures r.result.StatusCode() != 204 ==> r.after == users
    ensures r.result.StatusCode() == 204 ==> r.after == users[id := user]
  {
    if id != user.id then
      Exchange(BadRequest(UserIdMismatch), users)
    else
      var step := Users.Update(users, Some(user));
      Exchange(NoContentOrError(step.completion), step.after)
  }

  /** DELETE api/users/{id}: 400 for the zero id and 404 for an absent one,
      both leaving the repository as it was; otherwise 204 and that user is gone. */
  function DeleteUser(users: map<int32, Users.User>, id: int32): (r: Exchange<Users.User, map<int32, Users.User>>)
    ensures r.result.StatusCode() == 400 <==> id == 0
    ensures r.result.StatusCode() == 404 <==> id != 0 && id !in users
    ensures r.result.StatusCode() == 204 <==> id != 0 && id in users
    ensures r.result.StatusCode() != 204 ==> r.after == users
    ensures r.result.StatusCode() == 204 ==> r.after.Keys == users.Keys - {id}
    ensures r.result.StatusCode() == 204 ==> forall k | k in r.after :: r.after[k] == users[k]
  {
    var step := Users.Delete(users, id);
    Exchange(NoContentOrError(step.completion), step.after)
  }

  /** A created user can be read back at the route the 201 response names. */
  lemma CreatedUserIsReadable(users: map<int32, Users.User>, user: Users.User)
    requires AddUser(users, user).result.CreatedAtAction?
    ensures GetUserById(AddUser(users, user).after, AddUser(users, user).result.routeId) == Ok(user)
  {
  }
}

/**
 * The user store shared by the screen: four request executors (list,
 * create, update, delete) behind one `{ users, addUser, updateUser,
 * deleteUser, loading, error }` facade. Every mutation puts its own request
 * on the wire and then, without waiting for it, a fresh list request.
 */
module UserContext {
  import opened Common
  import opened Api

  /** The body of a successful list request: `{ users: User[] }`. */
  datatype UsersResponse = UsersResponse(users: seq<User>)

  const PROVIDER_MISSING := "useUsers must be used within a UserProvider"

  class Store {
    const list: Executor<UsersResponse>
    const creator: Executor<User>
    const updater: Executor<User>
    const remover: Executor<()>
    /** Every request put on the wire, in the order it was issued. */
    var requests: seq<Request>

    /** The two executors of the same type are different objects. */
    ghost predicate Valid()
      reads this
    {
      creator != updater
    }

    /**
     * `UserProvider` on mount: four idle executors, and the mount effect
     * issues the list request once (lines 26-41).
     */
    constructor ()
      ensures Valid()
      ensures fresh(list) && fresh(creator) && fresh(updater) && fresh(remover)
      ensures requests == [RequestFor(GetCall(USERS_PATH))]
      ensures list.loading && list.error == None && list.data == None
      ensures !creator.loading && creator.data == None && creator.error == Some("")
      ensures !updater.loading && updater.data == None && updater.error == Some("")
      ensures !remover.loading && remover.data == None && remover.error == Some("")
    {
      var l := new Executor<UsersResponse>();
      list := l;
      creator := new Executor<User>();
      updater := new Executor<User>();
      remover := new Executor<()>();
      new;
      var get := l.Begin(GetCall(USERS_PATH));
      requests := [get];
    }

    /** `users`: the list of the latest successful list response, or `null` (line 72). */
    function Users(): (r: Option<seq<User>>)
      reads this, list
      ensures r.Some? <==> list.data.Some?
      ensures r.Some? ==> r.value == list.data.value.users
    {
      match list.data
      case Some(response) => Some(response.users)
      case None => None
    }

    /** `loading` comes from the list executor alone. */
    function Loading(): bool
      reads this, list
    {
      list.loading
    }

    /** `error` comes from the list executor alone. */
    function Error(): Option<string>
      reads this, list
    {
      list.error
    }

    /**
     * `addUser`: POST the record, then GET the list. `postData` does not
     * return the promise of `fetchData`, so the GET is issued while the POST
     * is still in flight.
     */
    method AddUser(user: User)
      requires Valid()
      modifies this`requests, creator, list
      ensures Valid()
      ensures requests == old(requests) + [RequestFor(PostCall(USERS_PATH, user)), RequestFor(GetCall(USERS_PATH))]
      ensures creator.loading && list.loading
      ensures creator.error == None && Error() == None
      ensures creator.data == old(creator.data) && Users() == old(Users())
      ensures unchanged(updater, remover)
    {
      var post := creator.Begin(PostCall(USERS_PATH, user));
      var get := list.Begin(GetCall(USERS_PATH));
      requests := requests + [post, get];
    }

    /** `updateUser(user, id)`: PATCH `/users/{id}` with the record, then GET the list. */
    method UpdateUser(user: User, id: string)
      requires Valid()
      modifies this`requests, updater, list
      ensures Valid()
      ensures requests == old(requests) + [RequestFor(PatchCall(USERS_PATH, user, id)), RequestFor(GetCall(USERS_PATH))]
      ensures updater.loading && list.loading
      ensures updater.error == None && Error() == None
      ensures updater.data == old(updater.data) && Users() == old(Users())
      ensures unchanged(creator, remover)
    {
      var patch := updater.Begin(PatchCall(USERS_PATH, user, id));
      var get := list.Begin(GetCall(USERS_PATH));
      requests := requests + [patch, get];
    }

    /** `deleteUser(id)`: DELETE `/users/{id}` without a body, then GET the list. */
    method DeleteUser(id: string)
      requires Valid()
      modifies this`requests, remover, list
      ensures Valid()
      ensures requests == old(requests) + [RequestFor(DeleteCall(USERS_PATH, id)), RequestFor(GetCall(USERS_PATH))]
      ensures remover.loading && list.loading
      ensures remover.error == None && Error() == None
      ensures remover.data == old(remover.data) && Users() == old(Users())
      ensures unchanged(creator, updater)
    {
      var delete := remover.Begin(DeleteCall(USERS_PATH, id));
      var get := list.Begin(GetCall(USERS_PATH));
      requests := requests + [delete, get];
    }

    /**
     * A list request ends: `users` follows a successful response and is kept
     * on a failure, which sets the exposed error instead.
     */
    method SettleList(outcome: Outcome<UsersResponse>)
      requires Valid()
      modifies list
      ensures Valid() && !Loading()
      ensures outcome.Ok? ==> Users() == Some(outcome.body.users) && Error() == old(Error())
      ensures !outcome.Ok? ==> Users() == old(Users()) && Error() == Some(StoredError(Caught(outcome)))
      ensures requests == old(requests)
    {
      list.Settle(outcome);
    }

    /** A create request ends: only its own executor changes; nothing exposed does. */
    method SettleCreate(outcome: Outcome<User>)
      requires Valid()
      modifies creator
      ensures Valid() && !creator.loading
      ensures outcome.Ok? ==> creator.data == Some(outcome.body) && creator.error == old(creator.error)
      ensures !outcome.Ok? ==> creator.data == old(creator.data) && creator.error == Some(StoredError(Caught(outcome)))
      ensures Users() == old(Users()) && Loading() == old(Loading()) && Error() == old(Error())
      ensures requests == old(requests)
    {
      creator.Settle(outcome);
    }

    /** An update request ends: only its own executor changes; nothing exposed does. */
    method SettleUpdate(outcome: Outcome<User>)
      requires Valid()
      modifies updater
      ensures Valid() && !updater.loading
      ensures outcome.Ok? ==> updater.data == Some(outcome.body) && updater.error == old(updater.error)
      ensures !outcome.Ok? ==> updater.data == old(updater.data) && updater.error == Some(StoredError(Caught(outcome)))
      ensures Users() == old(Users()) && Loading() == old(Loading()) && Error() == old(Error())
      ensures requests == old(requests)
    {
      updater.Settle(outcome);
    }

    /** A delete request ends: only its own executor changes; nothing exposed does. */
    method SettleDelete(outcome: Outcome<()>)
      requires Valid()
      modifies remover
      ensures Valid() && !remover.loading
      ensures outcome.Ok? ==> remover.data == Some(outcome.body) && remover.error == old(remover.error)
      ensures !outcome.Ok? ==> remover.data == old(remover.data) && remover.error == Some(StoredError(Caught(outcome)))
      ensures Users() == old(Users()) && Loading() == old(Loading()) && Error() == old(Error())
      ensures requests == old(requests)
    {
      remover.Settle(outcome);
    }
  }

  /**
   * A create that fails does not stop the refetch: the list still follows
   * the GET issued after it, and the failure stays in the create executor.
   */
  method FailedCreateThenRefetch(user: User, listed: seq<User>, statusText: string)
  {
    var store := new Store();
    store.SettleList(Ok(UsersResponse([])));
    store.AddUser(user);
    assert store.requests[1..] == [RequestFor(PostCall(USERS_PATH, user)), RequestFor(GetCall(USERS_PATH))];
    store.SettleCreate(NotOk(statusText));
    StoredErrorIsFallbackForErrors<User>(NotOk(statusText));
    assert store.creator.error == Some(FALLBACK_ERROR);
    store.SettleList(Ok(UsersResponse(listed)));
    assert store.Users() == Some(listed);
    assert store.Error() == None && !store.Loading();
  }

  /** `useUsers()`: the store, or an error when no provider is above the caller. */
  function UseUsers(context: Option<Store>): (r: Result<Store, string>)
    ensures r.Failure? <==> context.None?
    ensures r.Failure? ==> r.error == PROVIDER_MISSING
    ensures r.Success? ==> r.value == context.value
  {
    match context
    case Some(store) => Success(store)
    case None => Failure(PROVIDER_MISSING)
  }
}

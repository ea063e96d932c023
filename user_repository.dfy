/** The in-memory user store (adapters/memory/user_repository.go). */
module UserStore {
  import opened Wrappers
  import opened Domain

  /** Every user in `users` is filed under its own username. */
  predicate FiledByName(users: map<string, User>) {
    forall name :: name in users ==> users[name].username == name
  }

  class UserRepository {
    /** The users, keyed by username. */
    var users: map<string, User>

    /** Every user is filed under its own username. */
    ghost predicate Valid()
      reads this
    {
      FiledByName(users)
    }

    constructor ()
      ensures Valid() && users == map[]
    {
      users := map[];
    }

    /** Adds `user` under its username, unless that username is already in use. */
    method Create(user: User) returns (err: Option<Error>)
      requires Valid()
      modifies this
      ensures Valid()
      ensures user.username in old(users) ==> err == Some(UserAlreadyExists) && users == old(users)
      ensures user.username !in old(users) ==> err == None && users == old(users)[user.username := user]
    {
      if user.username in users {
        return Some(UserAlreadyExists);
      }
      users := users[user.username := user];
      return None;
    }

    /** The user filed under `username`; "user not found" when there is none. */
    method FindByUsername(username: string) returns (r: Result<User, Error>)
      ensures r.Success? <==> username in users
      ensures r.Success? ==> r.value == users[username]
      ensures r.Failure? ==> r.error == UserNotFound
    {
      if username !in users {
        return Failure(UserNotFound);
      }
      return Success(users[username]);
    }
  }
}

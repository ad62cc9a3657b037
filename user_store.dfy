/** The in-memory user table: copies of users keyed by username. */
module UserStore {
  import opened Prelude
  import opened Users
  import opened LaptopStore

  /** What `Find` answers for `username` over the table `users`: a copy of the entry, or nothing. */
  function FindIn(users: map<string, User>, username: string): (r: Option<User>)
    ensures r.Some? <==> username in users
    ensures r.Some? ==> r.value == users[username]
  {
    if username in users then Some(Clone(users[username])) else None
  }

  /** Every entry is stored under its own username. */
  ghost predicate NameKeyed(users: map<string, User>)
  {
    forall name | name in users :: users[name].username == name
  }

  class InMemoryUserStore {
    var users: map<string, User>

    ghost predicate Valid()
      reads this
    {
      NameKeyed(users)
    }

    constructor ()
      ensures Valid() && users == map[]
    {
      users := map[];
    }

    /** `Save`: insert-if-absent of a copy of the user under its username. */
    method Save(user: User) returns (err: Option<StoreError>)
      requires Valid()
      modifies this
      ensures Valid()
      ensures user.username in old(users) ==> err == Some(ErrAlreadyExists) && users == old(users)
      ensures user.username !in old(users) ==> err == None && users == old(users)[user.username := user]
    {
      if user.username in users {
        return Some(ErrAlreadyExists);
      }
      users := users[user.username := Clone(user)];
      err := None;
    }

    /** `Find`: a copy of the user stored under `username`, or nothing (never an error). */
    method Find(username: string) returns (r: Option<User>)
      requires Valid()
      ensures r == FindIn(users, username)
      ensures r.Some? ==> r.value.username == username
    {
      var user := Get(users, username);
      if user.None? {
        return None;
      }
      r := Some(Clone(user.value));
    }
  }

  /** A saved user is found again with the same fields. */
  lemma FindAfterSave(users: map<string, User>, user: User)
    ensures FindIn(users[user.username := user], user.username) == Some(user)
  {
  }

  /** Saving one user does not change what is found for any other username. */
  lemma SaveKeepsOthers(users: map<string, User>, user: User, other: string)
    requires other != user.username
    ensures FindIn(users[user.username := user], other) == FindIn(users, other)
  {
  }

  /**
   * Two saves under one username: the second fails with `ErrAlreadyExists`
   * and the first user stays stored.
   */
  method SaveTwice(store: InMemoryUserStore, first: User, second: User) returns (err1: Option<StoreError>, err2: Option<StoreError>)
    requires store.Valid() && first.username !in store.users && second.username == first.username
    modifies store
    ensures err1 == None && err2 == Some(ErrAlreadyExists)
    ensures FindIn(store.users, first.username) == Some(first)
  {
    err1 := store.Save(first);
    err2 := store.Save(second);
  }
}

/** The login table (authenticate_user, register_user). The source reloads the table
    from users.json on every call and writes it back after a registration; here the
    table is the in-memory map that file holds, and the file I/O is not modelled. */
module Accounts {

  class UserStore {
    /** Username to password, as users.json stores them. */
    var users: map<string, string>

    /** The table as load_users finds it (empty when the file does not exist). */
    constructor(stored: map<string, string>)
      ensures users == stored
    {
      users := stored;
    }

    /** `users.get(username) == password`: an unknown name gets None, which never
        equals a password. */
    function Authenticate(username: string, password: string): (ok: bool)
      reads this
      ensures ok <==> username in users && users[username] == password
    {
      if username in users then users[username] == password else false
    }

    /** Adds the pair unless the name is taken; an existing account is never
        overwritten. */
    method Register(username: string, password: string) returns (created: bool)
      modifies this
      ensures created <==> username !in old(users)
      ensures created ==> users == old(users)[username := password]
      ensures !created ==> users == old(users)
      ensures created ==> Authenticate(username, password)
      ensures forall u, p :: u != username ==> (Authenticate(u, p) <==> old(Authenticate(u, p)))
    {
      if username in users {
        return false;
      }
      users := users[username := password];
      created := true;
    }
  }

  /** Registering a fresh name succeeds; a second registration of the same name
      fails and keeps the first password. */
  method RegisterTwice(store: UserStore, username: string, first: string, second: string)
    returns (createdFirst: bool, createdSecond: bool)
    requires username !in store.users
    modifies store
    ensures createdFirst && !createdSecond
    ensures store.Authenticate(username, first)
    ensures first != second ==> !store.Authenticate(username, second)
  {
    createdFirst := store.Register(username, first);
    createdSecond := store.Register(username, second);
  }
}

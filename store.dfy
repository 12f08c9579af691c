/** The auth store (src/context/store.js): `token` and `role`, mirrored into
    the browser's localStorage under the keys "token" and "role". */
module AuthStore {
  import opened Common

  const TokenKey := "token"
  const RoleKey := "role"

  class Store {
    var token: Option<string>
    var role: Option<string>
    /** localStorage, as a map from key to stored string */
    var storage: map<string, string>

    /** Whenever the store holds a value, localStorage holds the same one. */
    ghost predicate Mirrored()
      reads this
    {
      && (token.Some? ==> TokenKey in storage && storage[TokenKey] == token.value)
      && (role.Some? ==> RoleKey in storage && storage[RoleKey] == role.value)
    }

    /** A fresh store starts signed out, whatever localStorage already holds
        (lines 4-5). */
    constructor (persisted: map<string, string>)
      ensures token == None && role == None && storage == persisted
      ensures Mirrored()
    {
      token := None;
      role := None;
      storage := persisted;
    }

    /** Lines 6-10: both keys are written, then both fields set. */
    method SetAuth(t: string, r: string)
      modifies this
      ensures token == Some(t) && role == Some(r)
      ensures storage == old(storage)[TokenKey := t][RoleKey := r]
      ensures Mirrored()
    {
      storage := storage[TokenKey := t];
      storage := storage[RoleKey := r];
      token := Some(t);
      role := Some(r);
    }

    /** Lines 11-15: both keys are removed, then both fields nulled. */
    method ClearAuth()
      modifies this
      ensures token == None && role == None
      ensures storage == old(storage) - {TokenKey, RoleKey}
      ensures TokenKey !in storage && RoleKey !in storage
      ensures Mirrored()
    {
      storage := storage - {TokenKey};
      storage := storage - {RoleKey};
      token := None;
      role := None;
    }
  }
}

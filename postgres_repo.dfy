/**
 * The PostgreSQL user repository over the `public.users` table, with the table as a map from
 * id to row. `id` is the primary key; `google_id` is not assumed unique, so a lookup by Google id
 * may find any of several rows. A failure of the database itself (connection, serialization) is
 * the `fault` parameter; the database clock NOW() is the `now` parameter.
 */
module PostgresRepo {
  import opened Wrappers
  import opened Errors
  import opened DomainUser

  /** A row of public.users besides its id; email and google_id are nullable. */
  datatype Row = Row(email: Option<string>, googleID: Option<string>, createdAt: int, updatedAt: int)

  /** The unique-violation error the database reports for an INSERT with an id already present. */
  const ErrDuplicateKey: Error := Plain("duplicate key value violates unique constraint")

  /** Some row has this Google id. */
  predicate HasGoogleID(table: map<UserID, Row>, googleID: string)
  {
    exists id :: id in table && table[id].googleID == Some(googleID)
  }

  class UserRepository {
    var table: map<UserID, Row>

    constructor (table: map<UserID, Row>)
      ensures this.table == table
    {
      this.table := table;
    }

    /**
     * FindByGoogleID: a user built from a row whose google_id equals `googleID`, nullable fields
     * as stored; ErrNotFound when there is none; a database failure wrapped with its context.
     */
    method FindByGoogleID(googleID: string, fault: Option<Error>) returns (r: Result<User, Error>)
      ensures fault.Some? ==> r == Err(Wrapped("query user by google_id", fault.value))
      ensures fault.None? && !HasGoogleID(table, googleID) ==> r == Err(NotFound)
      ensures fault.None? && HasGoogleID(table, googleID) ==> r.Ok?
      ensures r.Ok? ==> var u := r.value;
        u.id in table && u.googleID == Some(googleID) &&
        table[u.id] == Row(u.email, u.googleID, u.createdAt, u.updatedAt)
    {
      if fault.Some? {
        return Err(Wrapped("query user by google_id", fault.value));
      }
      if HasGoogleID(table, googleID) {
        var id :| id in table && table[id].googleID == Some(googleID);
        var row := table[id];
        var user := new User.Of(id, row.email, row.googleID, row.createdAt, row.updatedAt);
        return Ok(user);
      }
      return Err(NotFound);
    }

    /** FindByID: the user stored under `userID`, ErrNotFound when there is none. */
    method FindByID(userID: UserID, fault: Option<Error>) returns (r: Result<User, Error>)
      ensures fault.Some? ==> r == Err(Wrapped("query user by id", fault.value))
      ensures fault.None? && userID !in table ==> r == Err(NotFound)
      ensures fault.None? && userID in table ==> r.Ok?
      ensures r.Ok? ==> var u := r.value;
        u.id == userID && userID in table &&
        table[userID] == Row(u.email, u.googleID, u.createdAt, u.updatedAt)
    {
      if fault.Some? {
        return Err(Wrapped("query user by id", fault.value));
      }
      if userID !in table {
        return Err(NotFound);
      }
      var row := table[userID];
      var user := new User.Of(userID, row.email, row.googleID, row.createdAt, row.updatedAt);
      return Ok(user);
    }

    /**
     * Create: refuse an invalid user; otherwise insert a row with the user's id, email and
     * Google id, both timestamps NOW(), and write the returned id and timestamps into the user.
     */
    method Create(user: User, now: int, fault: Option<Error>) returns (err: Option<Error>)
      modifies this, user
      ensures old(user.Validate()).Some? ==> err == Some(Wrapped("invalid user", old(user.Validate()).value))
      ensures old(user.Validate()).None? && fault.Some? ==> err == Some(Wrapped("insert user", fault.value))
      ensures old(user.Validate()).None? && fault.None? && old(user.id) in old(table) ==>
        err == Some(Wrapped("insert user", ErrDuplicateKey))
      ensures old(user.Validate()).None? && fault.None? && old(user.id) !in old(table) ==> err.None?
      ensures err.Some? ==> table == old(table) && unchanged(user)
      ensures err.None? ==>
        old(user.id) !in old(table) &&
        table == old(table)[user.id := Row(user.email, user.googleID, now, now)] &&
        user.id == old(user.id) && user.email == old(user.email) && user.googleID == old(user.googleID) &&
        user.createdAt == now && user.updatedAt == now
    {
      var invalid := user.Validate();
      if invalid.Some? {
        return Some(Wrapped("invalid user", invalid.value));
      }
      if fault.Some? {
        return Some(Wrapped("insert user", fault.value));
      }
      if user.id in table {
        return Some(Wrapped("insert user", ErrDuplicateKey));
      }
      table := table[user.id := Row(user.email, user.googleID, now, now)];
      user.createdAt := now;
      user.updatedAt := now;
      return None;
    }

    /**
     * Update: refuse an invalid user; otherwise overwrite email, google_id and updated_at of the
     * row with the user's id, keeping created_at. No such row: ErrNotFound. The user object is
     * not written back to.
     */
    method Update(user: User, now: int, fault: Option<Error>) returns (err: Option<Error>)
      modifies this
      ensures user.Validate().Some? ==> err == Some(Wrapped("invalid user", user.Validate().value))
      ensures user.Validate().None? && fault.Some? ==> err == Some(Wrapped("update user", fault.value))
      ensures user.Validate().None? && fault.None? && user.id !in old(table) ==> err == Some(NotFound)
      ensures user.Validate().None? && fault.None? && user.id in old(table) ==> err.None?
      ensures err.Some? ==> table == old(table)
      ensures err.None? ==>
        user.id in old(table) &&
        table == old(table)[user.id := Row(user.email, user.googleID, old(table)[user.id].createdAt, now)]
    {
      var invalid := user.Validate();
      if invalid.Some? {
        return Some(Wrapped("invalid user", invalid.value));
      }
      if fault.Some? {
        return Some(Wrapped("update user", fault.value));
      }
      if user.id !in table {
        return Some(NotFound);
      }
      table := table[user.id := Row(user.email, user.googleID, table[user.id].createdAt, now)];
      return None;
    }
  }

  /** A user created with a fresh id is found again by id and by Google id, as it was stored. */
  method CreateThenFind(table: map<UserID, Row>, id: UserID, email: Option<string>, googleID: string, now: int)
    returns (created: Option<Error>, byID: Result<User, Error>, byGoogleID: Result<User, Error>)
    requires googleID != "" && id !in table
    ensures created.None?
    ensures byID.Ok? && byID.value.id == id && byID.value.email == email && byID.value.googleID == Some(googleID)
    ensures byID.Ok? && byID.value.createdAt == now && byID.value.updatedAt == now
    ensures byGoogleID.Ok? && byGoogleID.value.googleID == Some(googleID)
  {
    var repo := new UserRepository(table);
    var user := new User.New(googleID, email, id, ZeroTime);
    created := repo.Create(user, now, None);
    assert repo.table[id] == Row(email, Some(googleID), now, now);
    byID := repo.FindByID(id, None);
    assert repo.table[id].googleID == Some(googleID);
    byGoogleID := repo.FindByGoogleID(googleID, None);
  }

  /** An update is visible to a later lookup, with the creation time kept and the update time moved. */
  method UpdateThenFind(table: map<UserID, Row>, id: UserID, newEmail: string, now: int)
    returns (updated: Option<Error>, found: Result<User, Error>)
    requires id in table && table[id].googleID.Some? && table[id].googleID.value != ""
    ensures updated.None?
    ensures found.Ok? && found.value.email == Some(newEmail) && found.value.googleID == table[id].googleID
    ensures found.Ok? && found.value.createdAt == table[id].createdAt && found.value.updatedAt == now
  {
    var repo := new UserRepository(table);
    var row := table[id];
    var user := new User.Of(id, row.email, row.googleID, row.createdAt, row.updatedAt);
    user.UpdateEmail(newEmail, now);
    updated := repo.Update(user, now, None);
    assert repo.table[id] == Row(Some(newEmail), row.googleID, row.createdAt, now);
    found := repo.FindByID(id, None);
  }

  /** A user without a Google id is never stored: Create reports it and the table stays empty of it. */
  method InvalidUserNotStored(table: map<UserID, Row>, id: UserID, email: Option<string>, now: int)
    returns (created: Option<Error>, found: Result<User, Error>)
    requires id !in table
    ensures created == Some(Wrapped("invalid user", ErrGoogleIDRequired))
    ensures found == Err(NotFound)
  {
    var repo := new UserRepository(table);
    var user := new User.New("", email, id, now);
    created := repo.Create(user, now, None);
    found := repo.FindByID(id, None);
  }
}

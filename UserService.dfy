/** The user service over the User table: log in, register, update the
    name and email, update the profile image, and truncate. Each mutation
    sits behind ordered guards; together they keep emails unique. The
    bcrypt primitives are the parameters `hash` and `compare`; the clock
    is the parameter `now`. */
module UserService {
  import opened Common
  import opened Text

  datatype Role = ADMIN | CUSTOMER | SUPPLIER

  /** A row of the User table (the point balance is not part of this model). */
  datatype User = User(id: int, name: string, email: string, password: string, role: Role,
                       imageName: Option<string>, createdAt: int, updatedAt: int)

  /** The objects the service resolves with. */
  datatype LoginData = LoginData(id: int, role: Role)
  datatype NewUserData = NewUserData(id: int, name: string, email: string, role: Role,
                                     imageName: Option<string>, createdAt: int, updatedAt: int)
  datatype UpdatedUserData = UpdatedUserData(id: int, name: string, email: string, role: Role,
                                             imageName: Option<string>, updatedAt: int)
  datatype ProfileImageData = ProfileImageData(id: int, email: string, imageName: Option<string>, updatedAt: int)

  const AccountNotFound := Failure(404, "This account is not found")
  const EmailRegistered := Failure(400, "This email has been already registered")
  const EmailRegisteredToOther := Failure(400, "This email has been already registered with another user")

  predicate KeyedById(users: map<int, User>) {
    forall k :: k in users ==> users[k].id == k
  }

  /** The table's unique constraint on `email`. */
  predicate EmailsUnique(users: map<int, User>) {
    forall a, b :: a in users && b in users && users[a].email == users[b].email ==> a == b
  }

  /** `findUnique({ where: { email } })` finds a row. */
  predicate EmailTaken(users: map<int, User>, email: string) {
    exists k :: k in users && users[k].email == email
  }

  /** The row with `email`, if any, is not row `id`. */
  predicate EmailTakenByOther(users: map<int, User>, email: string, id: int) {
    exists k :: k in users && users[k].email == email && k != id
  }

  /** `(await findUnique({ where: { id } }))?.id`. */
  function LookupId(users: map<int, User>, id: int): (r: Option<int>)
    ensures r.Some? <==> id in users
    ensures r.Some? ==> r.value == id
  {
    if id in users then Some(id) else None
  }

  // ---------------------------------------------------------------------
  // The guard ladders
  // ---------------------------------------------------------------------

  /** The guards of `updateUser`, in the order they throw. */
  function UpdateChecks(users: map<int, User>, loggedInId: int, id: int, email: string): seq<Check> {
    [ Check(id !in users, AccountNotFound),
      Check(LookupId(users, loggedInId) != Some(id), Failure(404, "Can't update user with ID: " + IntToString(id))),
      Check(EmailTakenByOther(users, email, id), EmailRegisteredToOther) ]
  }

  function UpdateFailure(users: map<int, User>, loggedInId: int, id: int, email: string): (r: Option<Failure>)
    ensures r.None? <==> id in users && loggedInId == id && !EmailTakenByOther(users, email, id)
    ensures r.Some? ==> (r.value.status == 404 <==> id !in users || loggedInId != id)
  {
    var cs := UpdateChecks(users, loggedInId, id, email);
    NoneFailsUnrolled(cs);
    FirstFailing(cs)
  }

  /** Missing account, then somebody else's account, then an email owned
      by another user: the first that applies is thrown. */
  lemma UpdateFailureOrder(users: map<int, User>, loggedInId: int, id: int, email: string)
    ensures id !in users ==> UpdateFailure(users, loggedInId, id, email) == Some(AccountNotFound)
    ensures id in users && loggedInId != id ==>
              UpdateFailure(users, loggedInId, id, email) == Some(Failure(404, "Can't update user with ID: " + IntToString(id)))
    ensures id in users && loggedInId == id && EmailTakenByOther(users, email, id) ==>
              UpdateFailure(users, loggedInId, id, email) == Some(EmailRegisteredToOther)
  {
    var cs := UpdateChecks(users, loggedInId, id, email);
    if id !in users {
      FirstFailingAt(cs, 0);
    } else if loggedInId != id {
      assert NoneFails(cs[..1]);
      FirstFailingAt(cs, 1);
    } else if EmailTakenByOther(users, email, id) {
      assert NoneFails(cs[..2]);
      FirstFailingAt(cs, 2);
    }
  }

  /** Keeping one's own current email is allowed. */
  lemma OwnEmailAllowed(users: map<int, User>, id: int)
    requires EmailsUnique(users) && id in users
    ensures UpdateFailure(users, id, id, users[id].email).None?
  {
  }

  /** The guards of `updateUserProfileImage`, in the order they throw. */
  function ImageChecks(users: map<int, User>, loggedInId: int, id: int): seq<Check> {
    [ Check(id !in users, AccountNotFound),
      Check(LookupId(users, loggedInId) != Some(id),
            Failure(404, "Can't update user profile image with ID: " + IntToString(id))) ]
  }

  function ImageFailure(users: map<int, User>, loggedInId: int, id: int): (r: Option<Failure>)
    ensures r.None? <==> id in users && loggedInId == id
    ensures r.Some? ==> r.value.status == 404
    ensures id !in users ==> r == Some(AccountNotFound)
    ensures id in users && loggedInId != id ==>
              r == Some(Failure(404, "Can't update user profile image with ID: " + IntToString(id)))
  {
    var cs := ImageChecks(users, loggedInId, id);
    NoneFailsUnrolled(cs);
    if id in users && loggedInId != id then
      assert NoneFails(cs[..1]);
      FirstFailingAt(cs, 1);
      FirstFailing(cs)
    else FirstFailing(cs)
  }

  // ---------------------------------------------------------------------
  // What each mutation does to the table
  // ---------------------------------------------------------------------

  /** The row `registerUser` creates: the password is stored hashed, the
      image is unset and both timestamps are the creation time. */
  function NewUser(id: int, name: string, email: string, password: string, role: Role,
                   hash: string -> string, now: int): (u: User)
    ensures u.id == id && u.name == name && u.email == email && u.role == role
    ensures u.password == hash(password)
    ensures u.imageName.None? && u.createdAt == now && u.updatedAt == now
  {
    User(id, name, email, hash(password), role, None, now, now)
  }

  /** `registerUser`'s guard keeps emails unique. */
  lemma InsertKeepsEmailsUnique(users: map<int, User>, u: User)
    requires EmailsUnique(users) && u.id !in users && !EmailTaken(users, u.email)
    ensures EmailsUnique(users[u.id := u])
  {
    var t := users[u.id := u];
    forall a, b | a in t && b in t && t[a].email == t[b].email ensures a == b {
      if a != u.id && b != u.id {
        assert t[a] == users[a] && t[b] == users[b];
      }
    }
  }

  /** When `compare(p, hash(p))` holds, a freshly registered user is the
      one row LogUserIn finds for the email, and the password matches. */
  lemma RegisteredUserCanLogIn(users: map<int, User>, id: int, name: string, email: string, password: string,
                               role: Role, hash: string -> string, compare: (string, string) -> bool, now: int)
    requires EmailsUnique(users) && id !in users && !EmailTaken(users, email)
    requires compare(password, hash(password))
    ensures var t := users[id := NewUser(id, name, email, password, role, hash, now)];
            && EmailTaken(t, email)
            && forall k :: k in t && t[k].email == email ==> k == id && compare(password, t[k].password) && t[k].role == role
  {
    var u := NewUser(id, name, email, password, role, hash, now);
    InsertKeepsEmailsUnique(users, u);
    assert users[id := u][id] == u;
  }

  /** `updateUser`'s guards keep emails unique. */
  lemma RenameKeepsEmailsUnique(users: map<int, User>, loggedInId: int, id: int, name: string, email: string, now: int)
    requires EmailsUnique(users)
    requires UpdateFailure(users, loggedInId, id, email).None?
    ensures EmailsUnique(users[id := users[id].(name := name, email := email, updatedAt := now)])
  {
    var t := users[id := users[id].(name := name, email := email, updatedAt := now)];
    forall a, b | a in t && b in t && t[a].email == t[b].email ensures a == b {
      if a != id && b != id {
        assert t[a] == users[a] && t[b] == users[b];
      }
    }
  }

  // ---------------------------------------------------------------------
  // The table and the service functions
  // ---------------------------------------------------------------------

  /** The User table, keyed by id, with the auto-increment counter that
      assigns the next id. */
  class UserTable {
    var users: map<int, User>
    var nextId: int

    predicate Valid()
      reads this
    {
      && KeyedById(users)
      && EmailsUnique(users)
      && (forall k :: k in users ==> k < nextId)
    }

    constructor ()
      ensures users == map[] && nextId == 1 && Valid()
    {
      users := map[];
      nextId := 1;
    }

    /** `logUserIn`: an unknown email is refused before any password is
        compared; a wrong password is refused; otherwise only the id and
        the role are returned. */
    method LogUserIn(email: string, password: string, compare: (string, string) -> bool)
      returns (r: Result<LoginData>)
      requires Valid()
      ensures !EmailTaken(users, email) ==> r == Err(Failure(400, "This account is not found"))
      ensures forall k :: k in users && users[k].email == email ==>
                r == if compare(password, users[k].password) then Ok(LoginData(k, users[k].role))
                     else Err(Failure(400, "Password is incorrect"))
    {
      if !exists k :: k in users && users[k].email == email {
        return Err(Failure(400, "This account is not found"));
      }
      var k :| k in users && users[k].email == email;
      var registeredUser := users[k];
      if !compare(password, registeredUser.password) {
        return Err(Failure(400, "Password is incorrect"));
      }
      r := Ok(LoginData(registeredUser.id, registeredUser.role));
    }

    /** `registerUser`: a taken email is refused and nothing changes;
        otherwise exactly one row is added under the next id. */
    method RegisterUser(name: string, email: string, password: string, role: Role,
                        hash: string -> string, now: int) returns (r: Result<NewUserData>)
      requires Valid()
      modifies this
      ensures Valid()
      ensures EmailTaken(old(users), email) ==>
                r == Err(EmailRegistered) && users == old(users) && nextId == old(nextId)
      ensures !EmailTaken(old(users), email) ==>
                var u := NewUser(old(nextId), name, email, password, role, hash, now);
                && users == old(users)[u.id := u] && |users| == |old(users)| + 1
                && nextId == old(nextId) + 1
                && r == Ok(NewUserData(u.id, u.name, u.email, u.role, u.imageName, u.createdAt, u.updatedAt))
    {
      if exists k :: k in users && users[k].email == email {
        return Err(EmailRegistered);
      }
      var hashedPassword := hash(password);
      var newUser := User(nextId, name, email, hashedPassword, role, None, now, now);
      InsertKeepsEmailsUnique(users, newUser);
      users := users[nextId := newUser];
      nextId := nextId + 1;
      r := Ok(NewUserData(newUser.id, newUser.name, newUser.email, newUser.role,
                          newUser.imageName, newUser.createdAt, newUser.updatedAt));
    }

    /** `updateUser`: the three guards of UpdateFailure, then only the
        name, email and update time of row `id` change. */
    method UpdateUser(loggedInId: int, id: int, name: string, email: string, now: int)
      returns (r: Result<UpdatedUserData>)
      requires Valid()
      modifies this
      ensures Valid() && nextId == old(nextId)
      ensures UpdateFailure(old(users), loggedInId, id, email).Some? ==>
                r == Err(UpdateFailure(old(users), loggedInId, id, email).value) && users == old(users)
      ensures UpdateFailure(old(users), loggedInId, id, email).None? ==>
                var u := old(users)[id].(name := name, email := email, updatedAt := now);
                && users == old(users)[id := u]
                && r == Ok(UpdatedUserData(id, name, email, u.role, u.imageName, now))
    {
      UpdateFailureOrder(users, loggedInId, id, email);
      var loggedInUser := LookupId(users, loggedInId);
      var registeredUserById := LookupId(users, id);
      var registeredUserByEmail: Option<int> := None;
      if exists k :: k in users && users[k].email == email {
        var k :| k in users && users[k].email == email;
        registeredUserByEmail := Some(k);
      }

      if registeredUserById == None {
        return Err(AccountNotFound);
      }
      if loggedInUser != Some(registeredUserById.value) {
        return Err(Failure(404, "Can't update user with ID: " + IntToString(registeredUserById.value)));
      }
      if registeredUserByEmail != None && registeredUserById.value != registeredUserByEmail.value {
        return Err(EmailRegisteredToOther);
      }

      RenameKeepsEmailsUnique(users, loggedInId, id, name, email, now);
      var updatedUser := users[id].(name := name, email := email, updatedAt := now);
      users := users[id := updatedUser];
      r := Ok(UpdatedUserData(updatedUser.id, updatedUser.name, updatedUser.email, updatedUser.role,
                              updatedUser.imageName, updatedUser.updatedAt));
    }

    /** `updateUserProfileImage`: the two 404 guards of ImageFailure, then
        only the image name and update time of row `id` change. */
    method UpdateUserProfileImage(loggedInId: int, id: int, imageName: string, now: int)
      returns (r: Result<ProfileImageData>)
      requires Valid()
      modifies this
      ensures Valid() && nextId == old(nextId)
      ensures ImageFailure(old(users), loggedInId, id).Some? ==>
                r == Err(ImageFailure(old(users), loggedInId, id).value) && users == old(users)
      ensures ImageFailure(old(users), loggedInId, id).None? ==>
                var u := old(users)[id].(imageName := Some(imageName), updatedAt := now);
                && users == old(users)[id := u]
                && r == Ok(ProfileImageData(id, u.email, Some(imageName), now))
    {
      var loggedInUser := LookupId(users, loggedInId);
      var registeredUserById := LookupId(users, id);
      if registeredUserById == None {
        return Err(AccountNotFound);
      }
      if loggedInUser != Some(registeredUserById.value) {
        return Err(Failure(404, "Can't update user profile image with ID: " + IntToString(registeredUserById.value)));
      }
      var updatedUser := users[id].(imageName := Some(imageName), updatedAt := now);
      users := users[id := updatedUser];
      r := Ok(ProfileImageData(updatedUser.id, updatedUser.email, updatedUser.imageName, updatedUser.updatedAt));
    }

    /** `truncateAllUsers`: `findMany` yields a list, never null, so the 404
        branch cannot be taken; every row is deleted and their number
        returned, 0 for an empty table. */
    method TruncateAllUsers() returns (r: Result<int>)
      requires Valid()
      modifies this
      ensures Valid() && nextId == old(nextId)
      ensures users == map[] && r == Ok(|old(users)|)
    {
      var allUsers := users.Keys;
      var count := |allUsers|;
      users := map[];
      r := Ok(count);
    }
  }
}

/**
 * The user service: profile lookups without the password column, profile updates that
 * keep emails unique, the password change, and deletion. Password hashing and
 * comparison are passed in as functions.
 */
module UserService {
  import opened Common
  import opened Enums
  import opened Store

  const UserNotFoundMessage: string := "Usuário não encontrado"
  const EmailInUseMessage: string := "Email já está em uso"
  const WrongPasswordMessage: string := "Senha atual incorreta"

  /** The bcrypt cost factor used for new password hashes. */
  const HashRounds: int := 12

  // -------------------------------------------------------------------- listing

  datatype UserListParams = UserListParams(page: Option<int>, limit: Option<int>, role: Option<UserRole>, search: Option<string>)

  /** The query the listing sends: the role filter when given, the text search only when non-empty. */
  datatype UserQuery = UserQuery(skip: int, take: int, role: Option<UserRole>, search: Option<string>)

  function UsersQuery(params: UserListParams): (q: UserQuery)
    ensures q.take == OrNumber(params.limit, 10)
    ensures q.skip == (OrNumber(params.page, 1) - 1) * q.take
    ensures q.role == params.role
    ensures q.search.Some? <==> Truthy(params.search)
    ensures q.search.Some? ==> q.search == params.search
  {
    var page := OrNumber(params.page, 1);
    var limit := OrNumber(params.limit, 10);
    UserQuery((page - 1) * limit, limit, params.role, if Truthy(params.search) then params.search else None)
  }

  /**
   * Whether a user satisfies the query's filter. Text search is a case-insensitive
   * substring match on the name or the email done by the database; `contains` stands for it.
   */
  predicate MatchesUser(u: User, q: UserQuery, contains: (string, string) -> bool)
  {
    && (q.role.Some? ==> u.role == q.role.value)
    && (q.search.Some? ==> (u.name.Some? && contains(u.name.value, q.search.value)) || contains(u.email, q.search.value))
  }

  /** A role filter lists only users with that role; without filters every user is listed, 10 to a page. */
  lemma UserListingFilters(u: User, params: UserListParams, contains: (string, string) -> bool)
    ensures params.role.Some? && MatchesUser(u, UsersQuery(params), contains) ==> u.role == params.role.value
    ensures params.role.None? && !Truthy(params.search) ==> MatchesUser(u, UsersQuery(params), contains)
    ensures params == UserListParams(None, None, None, None) ==> UsersQuery(params) == UserQuery(0, 10, None, None)
  {
  }

  /** The columns the service returns: everything but the password. */
  datatype PublicUser = PublicUser(id: string, name: Option<string>, email: string, role: UserRole, image: Option<string>)

  function Public(u: User): (p: PublicUser)
    ensures p.id == u.id && p.email == u.email && p.role == u.role && p.name == u.name && p.image == u.image
  {
    PublicUser(u.id, u.name, u.email, u.role, u.image)
  }

  function GetUserById(users: map<string, User>, id: string): (r: Result<PublicUser, Failure>)
    ensures r.Ok? <==> id in users
    ensures r.Ok? ==> r.value == Public(users[id])
    ensures r.Err? ==> r.error == Message(UserNotFoundMessage)
  {
    if id in users then Ok(Public(users[id])) else Err(Message(UserNotFoundMessage))
  }

  predicate EmailTaken(users: map<string, User>, email: string)
  {
    exists k :: k in users && users[k].email == email
  }

  predicate EmailUsedByOther(users: map<string, User>, id: string, email: string)
  {
    exists k :: k in users && k != id && users[k].email == email
  }

  /**
   * The fields a profile update may carry: the user's own update has no role, the
   * administrator's may. An image of `Some(None)` clears the image.
   */
  datatype UserPatch = UserPatch(name: Option<string>, email: Option<string>, role: Option<UserRole>, image: Option<Option<string>>)

  function ApplyUserPatch(u: User, patch: UserPatch): (v: User)
    ensures v.id == u.id && v.password == u.password
    ensures v.email == if patch.email.Some? then patch.email.value else u.email
    ensures v.role == if patch.role.Some? then patch.role.value else u.role
  {
    User(
      u.id,
      if patch.name.Some? then Some(patch.name.value) else u.name,
      Patched(patch.email, u.email),
      u.password,
      Patched(patch.role, u.role),
      Patched(patch.image, u.image))
  }

  /**
   * Both profile updates: a known user, and a given, non-empty, changed email that no
   * one else uses. A write that would still duplicate an email is refused by the database.
   */
  method ApplyUpdate(db: Database, id: string, patch: UserPatch) returns (r: Result<PublicUser, Failure>)
    requires Consistent(db.State())
    modifies db
    ensures Consistent(db.State())
    ensures id !in old(db.users) ==> r == Err(Message(UserNotFoundMessage))
    ensures (id in old(db.users) && Truthy(patch.email) && patch.email.value != old(db.users)[id].email
             && EmailTaken(old(db.users), patch.email.value)) ==> r == Err(Message(EmailInUseMessage))
    ensures r.Err? ==> db.State() == old(db.State())
    ensures r.Ok? ==>
      && id in old(db.users)
      && r == Ok(Public(ApplyUserPatch(old(db.users)[id], patch)))
      && db.State() == old(db.State()).(users := old(db.users)[id := ApplyUserPatch(old(db.users)[id], patch)])
    ensures id in old(db.users) && !EmailUsedByOther(old(db.users), id, ApplyUserPatch(old(db.users)[id], patch).email)
      ==> r.Ok?
  {
    if id !in db.users {
      return Err(Message(UserNotFoundMessage));
    }
    var existing := db.users[id];
    if Truthy(patch.email) && patch.email.value != existing.email {
      if EmailTaken(db.users, patch.email.value) {
        return Err(Message(EmailInUseMessage));
      }
    }
    var updated := ApplyUserPatch(existing, patch);
    if EmailUsedByOther(db.users, id, updated.email) {
      return Err(Db(UniqueViolation));
    }
    ghost var t := db.State();
    UserWriteConsistent(t, id, updated);
    db.users := db.users[id := updated];
    assert db.State() == t.(users := t.users[id := updated]);
    r := Ok(Public(updated));
  }

  /** Overwriting a user under their own id with an e-mail no other user has keeps the tables consistent. */
  lemma UserWriteConsistent(t: Tables, id: string, v: User)
    requires Consistent(t) && id in t.users && v.id == id
    requires !EmailUsedByOther(t.users, id, v.email)
    ensures Consistent(t.(users := t.users[id := v]))
  {
    var us := t.users[id := v];
    forall a, b | a in us && b in us && us[a].email == us[b].email ensures a == b {
      if a != id && b != id {
        assert us[a] == t.users[a] && us[b] == t.users[b];
      }
    }
  }

  datatype UpdateUserInput = UpdateUserInput(name: Option<string>, email: Option<string>, image: Option<Option<string>>)

  /** A user's update of their own profile; the role cannot change this way. */
  method UpdateUser(db: Database, id: string, data: UpdateUserInput) returns (r: Result<PublicUser, Failure>)
    requires Consistent(db.State())
    modifies db
    ensures Consistent(db.State())
    ensures id !in old(db.users) ==> r == Err(Message(UserNotFoundMessage))
    ensures r.Err? ==> db.State() == old(db.State())
    ensures r.Ok? ==> id in old(db.users) && r.value.role == old(db.users)[id].role
    ensures r.Ok? ==>
      db.State() == old(db.State()).(users := old(db.users)[id := ApplyUserPatch(old(db.users)[id], UserPatch(data.name, data.email, None, data.image))])
  {
    r := ApplyUpdate(db, id, UserPatch(data.name, data.email, None, data.image));
  }

  /** An administrator's update, which may also change the role. */
  method AdminUpdateUser(db: Database, id: string, patch: UserPatch) returns (r: Result<PublicUser, Failure>)
    requires Consistent(db.State())
    modifies db
    ensures Consistent(db.State())
    ensures id !in old(db.users) ==> r == Err(Message(UserNotFoundMessage))
    ensures r.Err? ==> db.State() == old(db.State())
    ensures r.Ok? ==> id in old(db.users) && r.value.role == (if patch.role.Some? then patch.role.value else old(db.users)[id].role)
    ensures r.Ok? ==>
      db.State() == old(db.State()).(users := old(db.users)[id := ApplyUserPatch(old(db.users)[id], patch)])
  {
    r := ApplyUpdate(db, id, patch);
  }

  /**
   * Replaces the password after checking the current one. A missing user and a user
   * without a password (one who signed in through a provider) are both "not found".
   */
  method UpdatePassword(db: Database, userId: string, currentPassword: string, newPassword: string,
                        compare: (string, string) -> bool, hash: (string, int) -> string)
    returns (r: Result<(), Failure>)
    requires Consistent(db.State())
    modifies db
    ensures Consistent(db.State())
    ensures (userId !in old(db.users) || !Truthy(old(db.users)[userId].password)) ==> r == Err(Message(UserNotFoundMessage))
    ensures (userId in old(db.users) && Truthy(old(db.users)[userId].password)
             && !compare(currentPassword, old(db.users)[userId].password.value)) ==> r == Err(Message(WrongPasswordMessage))
    ensures r.Err? ==> db.State() == old(db.State())
    ensures r.Ok? <==>
      userId in old(db.users) && Truthy(old(db.users)[userId].password)
      && compare(currentPassword, old(db.users)[userId].password.value)
    ensures r.Ok? ==>
      db.State() == old(db.State()).(users := old(db.users)[userId := old(db.users)[userId].(password := Some(hash(newPassword, HashRounds)))])
  {
    if userId !in db.users || !Truthy(db.users[userId].password) {
      return Err(Message(UserNotFoundMessage));
    }
    var user := db.users[userId];
    if !compare(currentPassword, user.password.value) {
      return Err(Message(WrongPasswordMessage));
    }
    var hashed := hash(newPassword, HashRounds);
    db.users := db.users[userId := user.(password := Some(hashed))];
    r := Ok(());
  }

  method DeleteUser(db: Database, id: string) returns (r: Result<(), Failure>)
    requires Consistent(db.State())
    modifies db
    ensures Consistent(db.State())
    ensures id !in old(db.users) ==> r == Err(Message(UserNotFoundMessage)) && db.State() == old(db.State())
    ensures id in old(db.users) ==> r.Ok? && db.State() == old(db.State()).(users := old(db.users) - {id})
  {
    var found := GetUserById(db.users, id);
    if found.Err? {
      return Err(found.error);
    }
    db.users := db.users - {id};
    r := Ok(());
  }
}

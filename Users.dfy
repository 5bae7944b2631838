/** Account rules: registration, login, role queries, profile updates,
    deletion and the enabled switch. Each call runs in one transaction: a
    call that throws leaves the database as it was. */
module UserService {
  import opened Common
  import opened Entities
  import opened Database

  /** The password encoder is foreign code; its two operations are given. */
  datatype PasswordEncoder = PasswordEncoder(
    encode: string -> string,
    matches: (string, string) -> bool)

  datatype RegisterRequest = RegisterRequest(
    username: string,
    email: string,
    password: string,
    firstName: Option<string>,
    lastName: Option<string>,
    phone: Option<string>,
    role: Option<UserRole>,
    address: Option<string>,
    city: Option<string>,
    postcode: Option<string>,
    country: Option<string>,
    businessName: Option<string>,
    businessLicense: Option<string>,
    businessDescription: Option<string>)

  /** Every field may be null; nothing here changes the role or the enabled flag. */
  datatype UpdateUserRequest = UpdateUserRequest(
    username: Option<string>,
    email: Option<string>,
    password: Option<string>,
    firstName: Option<string>,
    lastName: Option<string>,
    phone: Option<string>,
    address: Option<string>,
    city: Option<string>,
    postcode: Option<string>,
    country: Option<string>,
    businessName: Option<string>,
    businessLicense: Option<string>,
    businessDescription: Option<string>)

  /** A string field of an update that is non-null and non-empty. */
  predicate Given(s: Option<string>)
  {
    s.Some? && s.value != ""
  }

  /** A nullable field of an update: null keeps the stored value. */
  function Keep<T>(update: Option<T>, stored: Option<T>): Option<T>
  {
    if update.Some? then update else stored
  }

  /** The account `register` stores for a request. */
  function NewAccount(enc: PasswordEncoder, request: RegisterRequest): User
  {
    var merchant := request.role == Some(Merchant);
    User(
      username := request.username,
      email := request.email,
      password := enc.encode(request.password),
      firstName := request.firstName,
      lastName := request.lastName,
      phone := request.phone,
      role := if request.role.Some? then request.role.value else Customer,
      enabled := true,
      address := request.address,
      city := request.city,
      postcode := request.postcode,
      country := request.country,
      businessName := if merchant then request.businessName else None,
      businessLicense := if merchant then request.businessLicense else None,
      businessDescription := if merchant then request.businessDescription else None,
      lastLoginAt := None)
  }

  /** The user `updateUser` stores when no uniqueness check fails: the
      sign-in fields, then the contact fields, then the business fields. */
  function Patched(u: User, enc: PasswordEncoder, request: UpdateUserRequest): User
  {
    PatchedBusiness(PatchedContact(PatchedSignIn(u, enc, request), request), request)
  }

  /** Username, email and password: null or empty keeps the stored value. */
  function PatchedSignIn(u: User, enc: PasswordEncoder, request: UpdateUserRequest): User
  {
    u.(
      username := if Given(request.username) then request.username.value else u.username,
      email := if Given(request.email) then request.email.value else u.email,
      password := if Given(request.password) then enc.encode(request.password.value) else u.password)
  }

  /** Name, phone and address fields: null keeps the stored value. */
  function PatchedContact(u: User, request: UpdateUserRequest): User
  {
    PatchedAddress(PatchedName(u, request), request)
  }

  function PatchedName(u: User, request: UpdateUserRequest): User
  {
    u.(
      firstName := Keep(request.firstName, u.firstName),
      lastName := Keep(request.lastName, u.lastName),
      phone := Keep(request.phone, u.phone))
  }

  function PatchedAddress(u: User, request: UpdateUserRequest): User
  {
    u.(
      address := Keep(request.address, u.address),
      city := Keep(request.city, u.city),
      postcode := Keep(request.postcode, u.postcode),
      country := Keep(request.country, u.country))
  }

  /** Business fields change only for a stored merchant. */
  function PatchedBusiness(u: User, request: UpdateUserRequest): User
  {
    if u.role != Merchant then u
    else u.(
      businessName := Keep(request.businessName, u.businessName),
      businessLicense := Keep(request.businessLicense, u.businessLicense),
      businessDescription := Keep(request.businessDescription, u.businessDescription))
  }

  /** The username check of `updateUser` fails: a new, different username
      that some stored user already has. */
  predicate UsernameClash(users: map<int, User>, id: int, request: UpdateUserRequest)
    requires id in users
  {
    Given(request.username) && request.username.value != users[id].username
    && UsernameTaken(users, request.username.value)
  }

  /** The email check of `updateUser` fails. */
  predicate EmailClash(users: map<int, User>, id: int, request: UpdateUserRequest)
    requires id in users
  {
    Given(request.email) && request.email.value != users[id].email
    && EmailTaken(users, request.email.value)
  }

  /** The stored account with a given email (unique by the database index). */
  ghost function AccountWithEmail(users: map<int, User>, email: string): (id: int)
    requires EmailTaken(users, email)
    ensures id in users && users[id].email == email
  {
    var id :| id in users && users[id].email == email; id
  }

  /** `register`: the email is checked first, then the username. */
  method Register(db: Db, enc: PasswordEncoder, request: RegisterRequest) returns (r: Result<int>)
    requires db.Valid()
    modifies db
    ensures db.Valid()
    ensures EmailTaken(old(db.users), request.email) ==>
              r == Err(UserAlreadyExists(EmailInUse)) && unchanged(db)
    ensures !EmailTaken(old(db.users), request.email) && UsernameTaken(old(db.users), request.username) ==>
              r == Err(UserAlreadyExists(UsernameInUse)) && unchanged(db)
    ensures !EmailTaken(old(db.users), request.email) && !UsernameTaken(old(db.users), request.username) ==>
              && r.Ok? && r.value !in old(db.users)
              && db.users == old(db.users)[r.value := NewAccount(enc, request)]
              && db.products == old(db.products) && db.orders == old(db.orders)
  {
    if EmailTaken(db.users, request.email) {
      return Err(UserAlreadyExists(EmailInUse));
    }
    if UsernameTaken(db.users, request.username) {
      return Err(UserAlreadyExists(UsernameInUse));
    }
    var user := NewAccount(enc, request);
    var id := db.nextUserId;
    AddAccountKeepsUnique(db.users, id, user);
    db.users := db.users[id := user];
    db.nextUserId := db.nextUserId + 1;
    r := Ok(id);
  }

  /** `validateLogin`: an unknown email and a wrong password fail alike;
      whether the account is disabled is revealed only after the password
      matched. On success the login time is recorded. */
  method ValidateLogin(db: Db, enc: PasswordEncoder, email: string, password: string, now: Timestamp)
    returns (r: Result<int>)
    requires db.Valid()
    modifies db
    ensures db.Valid()
    ensures !EmailTaken(old(db.users), email) ==>
              r == Err(InvalidCredentials(WrongEmailOrPassword)) && unchanged(db)
    ensures EmailTaken(old(db.users), email) ==>
              var id := AccountWithEmail(old(db.users), email);
              var u := old(db.users)[id];
              if !enc.matches(password, u.password) then
                r == Err(InvalidCredentials(WrongEmailOrPassword)) && unchanged(db)
              else if !u.enabled then
                r == Err(InvalidCredentials(AccountDisabled)) && unchanged(db)
              else
                && r == Ok(id)
                && db.users == old(db.users)[id := u.(lastLoginAt := Some(now))]
                && db.products == old(db.products) && db.orders == old(db.orders)
  {
    if !EmailTaken(db.users, email) {
      return Err(InvalidCredentials(WrongEmailOrPassword));
    }
    var id :| id in db.users && db.users[id].email == email;
    assert id == AccountWithEmail(db.users, email);
    var user := db.users[id];
    if !enc.matches(password, user.password) {
      return Err(InvalidCredentials(WrongEmailOrPassword));
    }
    if !user.enabled {
      return Err(InvalidCredentials(AccountDisabled));
    }
    user := user.(lastLoginAt := Some(now));
    SameIdentityKeepsUnique(db.users, id, user);
    db.users := db.users[id := user];
    r := Ok(id);
  }

  /** `getUsersByRole`: the users whose role is `role`, each as stored. */
  function UsersByRole(users: map<int, User>, role: UserRole): (r: map<int, User>)
    ensures forall id :: id in r <==> id in users && users[id].role == role
    ensures forall id :: id in r ==> r[id] == users[id]
  {
    map id | id in users && users[id].role == role :: users[id]
  }

  /** `updateUser`: the username is checked (and set) before the email;
      null, and for username, email and password also empty, keeps a
      field; business fields change only for a stored merchant. */
  method UpdateUser(db: Db, enc: PasswordEncoder, id: int, request: UpdateUserRequest)
    returns (r: Result<int>)
    requires db.Valid()
    modifies db
    ensures db.Valid()
    ensures id !in old(db.users) ==> r == Err(UserNotFound) && unchanged(db)
    ensures id in old(db.users) && UsernameClash(old(db.users), id, request) ==>
              r == Err(UserAlreadyExists(UsernameInUse)) && unchanged(db)
    ensures id in old(db.users) && !UsernameClash(old(db.users), id, request)
            && EmailClash(old(db.users), id, request) ==>
              r == Err(UserAlreadyExists(EmailInUse)) && unchanged(db)
    ensures id in old(db.users) && !UsernameClash(old(db.users), id, request)
            && !EmailClash(old(db.users), id, request) ==>
              && r == Ok(id)
              && db.users == old(db.users)[id := Patched(old(db.users)[id], enc, request)]
              && db.products == old(db.products) && db.orders == old(db.orders)
  {
    if id !in db.users {
      return Err(UserNotFound);
    }
    var user := db.users[id];
    if Given(request.username) && user.username != request.username.value
       && UsernameTaken(db.users, request.username.value)
    {
      return Err(UserAlreadyExists(UsernameInUse));
    }
    if Given(request.email) && user.email != request.email.value
       && EmailTaken(db.users, request.email.value)
    {
      return Err(UserAlreadyExists(EmailInUse));
    }
    user := ApplyUpdate(user, enc, request);
    PatchKeepsUnique(db.users, id, enc, request);
    db.users := db.users[id := user];
    r := Ok(id);
  }

  /** The setter chain of `updateUser`, applied to the loaded user once
      both uniqueness checks have passed. */
  method ApplyUpdate(u: User, enc: PasswordEncoder, request: UpdateUserRequest) returns (user: User)
    ensures user == Patched(u, enc, request)
  {
    user := SetSignIn(u, enc, request);
    user := SetContact(user, request);
    user := SetBusiness(user, request);
  }

  method SetSignIn(u: User, enc: PasswordEncoder, request: UpdateUserRequest) returns (user: User)
    ensures user == PatchedSignIn(u, enc, request)
  {
    user := u;
    if Given(request.username) { user := user.(username := request.username.value); }
    if Given(request.email) { user := user.(email := request.email.value); }
    if Given(request.password) { user := user.(password := enc.encode(request.password.value)); }
  }

  method SetContact(u: User, request: UpdateUserRequest) returns (user: User)
    ensures user == PatchedContact(u, request)
  {
    user := SetName(u, request);
    user := SetAddress(user, request);
  }

  method SetName(u: User, request: UpdateUserRequest) returns (user: User)
    ensures user == PatchedName(u, request)
  {
    user := u;
    if request.firstName.Some? { user := user.(firstName := request.firstName); }
    if request.lastName.Some? { user := user.(lastName := request.lastName); }
    if request.phone.Some? { user := user.(phone := request.phone); }
  }

  method SetAddress(u: User, request: UpdateUserRequest) returns (user: User)
    ensures user == PatchedAddress(u, request)
  {
    user := u;
    if request.address.Some? { user := user.(address := request.address); }
    if request.city.Some? { user := user.(city := request.city); }
    if request.postcode.Some? { user := user.(postcode := request.postcode); }
    if request.country.Some? { user := user.(country := request.country); }
  }

  method SetBusiness(u: User, request: UpdateUserRequest) returns (user: User)
    ensures user == PatchedBusiness(u, request)
  {
    user := u;
    if user.role == Merchant {
      if request.businessName.Some? { user := user.(businessName := request.businessName); }
      if request.businessLicense.Some? { user := user.(businessLicense := request.businessLicense); }
      if request.businessDescription.Some? {
        user := user.(businessDescription := request.businessDescription);
      }
    }
  }

  /** `deleteUser`. */
  method DeleteUser(db: Db, id: int) returns (r: Result<()>)
    requires db.Valid()
    modifies db
    ensures db.Valid()
    ensures id !in old(db.users) ==> r == Err(UserNotFound) && unchanged(db)
    ensures id in old(db.users) ==>
              && r == Ok(())
              && db.users == old(db.users) - {id}
              && db.products == old(db.products) && db.orders == old(db.orders)
  {
    if id !in db.users {
      return Err(UserNotFound);
    }
    db.users := db.users - {id};
    r := Ok(());
  }

  /** `toggleUserStatus`: negates the enabled flag. */
  method ToggleUserStatus(db: Db, id: int) returns (r: Result<int>)
    requires db.Valid()
    modifies db
    ensures db.Valid()
    ensures id !in old(db.users) ==> r == Err(UserNotFound) && unchanged(db)
    ensures id in old(db.users) ==>
              && r == Ok(id)
              && db.users == old(db.users)[id := old(db.users)[id].(enabled := !old(db.users)[id].enabled)]
              && db.products == old(db.products) && db.orders == old(db.orders)
  {
    if id !in db.users {
      return Err(UserNotFound);
    }
    var user := db.users[id];
    user := user.(enabled := !user.enabled);
    SameIdentityKeepsUnique(db.users, id, user);
    db.users := db.users[id := user];
    r := Ok(id);
  }

  // ---------------------------------------------------------------------
  // Properties
  // ---------------------------------------------------------------------

  /** A fresh account whose email and username are both free keeps every
      email and every username unique. */
  lemma AddAccountKeepsUnique(users: map<int, User>, id: int, u: User)
    requires UniqueAccounts(users)
    requires id !in users
    requires !EmailTaken(users, u.email) && !UsernameTaken(users, u.username)
    ensures UniqueAccounts(users[id := u])
  {
    var users' := users[id := u];
    forall a, b | a in users' && b in users' && a != b
      ensures users'[a].email != users'[b].email && users'[a].username != users'[b].username
    {
      if a == id {
        assert users'[b] == users[b];
      } else if b == id {
        assert users'[a] == users[a];
      }
    }
  }

  /** Replacing a stored user by one with the same email and username keeps
      the accounts unique. */
  lemma SameIdentityKeepsUnique(users: map<int, User>, id: int, u: User)
    requires UniqueAccounts(users)
    requires id in users
    requires u.email == users[id].email && u.username == users[id].username
    ensures UniqueAccounts(users[id := u])
  {
  }

  /** An update that passes both checks keeps every email and every
      username unique. */
  lemma PatchKeepsUnique(users: map<int, User>, id: int, enc: PasswordEncoder, request: UpdateUserRequest)
    requires UniqueAccounts(users)
    requires id in users
    requires !UsernameClash(users, id, request) && !EmailClash(users, id, request)
    ensures UniqueAccounts(users[id := Patched(users[id], enc, request)])
  {
    var p := Patched(users[id], enc, request);
    var users' := users[id := p];
    forall a, b | a in users' && b in users' && a != b
      ensures users'[a].email != users'[b].email && users'[a].username != users'[b].username
    {
      if a == id || b == id {
        var other := if a == id then b else a;
        assert users'[other] == users[other];
        assert p.email != users[other].email;
        assert p.username != users[other].username;
      }
    }
  }

  /** A username clash means another user holds the requested name:
      re-submitting one's own current name is never a clash. The same for
      emails. */
  lemma ClashMeansAnotherHolder(users: map<int, User>, id: int, request: UpdateUserRequest)
    requires UniqueAccounts(users)
    requires id in users
    ensures UsernameClash(users, id, request) <==>
              Given(request.username)
              && exists j :: j in users && j != id && users[j].username == request.username.value
    ensures EmailClash(users, id, request) <==>
              Given(request.email)
              && exists j :: j in users && j != id && users[j].email == request.email.value
  {
  }

  /** A registered account is enabled, defaults to the customer role, gets
      the encoded password, and carries business fields only when the
      request asked for the merchant role. */
  lemma NewAccountDefaults(enc: PasswordEncoder, request: RegisterRequest)
    ensures var u := NewAccount(enc, request);
      && u.enabled
      && u.password == enc.encode(request.password)
      && (request.role.None? ==> u.role == Customer)
      && (request.role.Some? ==> u.role == request.role.value)
      && (request.role != Some(Merchant) ==>
            u.businessName.None? && u.businessLicense.None? && u.businessDescription.None?)
      && (request.role == Some(Merchant) ==>
            u.businessName == request.businessName && u.businessLicense == request.businessLicense
            && u.businessDescription == request.businessDescription)
      && u.lastLoginAt.None?
  {
  }

  /** An update never changes the role, the enabled flag or the last login;
      an update whose fields are all null changes nothing; a non-merchant's
      business fields never change. */
  lemma PatchedKeeps(u: User, enc: PasswordEncoder, request: UpdateUserRequest)
    ensures var p := Patched(u, enc, request);
      && p.role == u.role && p.enabled == u.enabled && p.lastLoginAt == u.lastLoginAt
      && (u.role != Merchant ==>
            p.businessName == u.businessName && p.businessLicense == u.businessLicense
            && p.businessDescription == u.businessDescription)
      && (!Given(request.username) ==> p.username == u.username)
      && (!Given(request.email) ==> p.email == u.email)
      && (!Given(request.password) ==> p.password == u.password)
    ensures var p := Patched(u, enc, request);
      && (request.firstName.None? ==> p.firstName == u.firstName)
      && (request.lastName.None? ==> p.lastName == u.lastName)
      && (request.phone.None? ==> p.phone == u.phone)
      && (request.address.None? ==> p.address == u.address)
      && (request.city.None? ==> p.city == u.city)
      && (request.postcode.None? ==> p.postcode == u.postcode)
      && (request.country.None? ==> p.country == u.country)
      && (request.businessName.None? ==> p.businessName == u.businessName)
      && (request.businessLicense.None? ==> p.businessLicense == u.businessLicense)
      && (request.businessDescription.None? ==> p.businessDescription == u.businessDescription)
    ensures (request == UpdateUserRequest(None, None, None, None, None, None, None, None, None, None, None, None, None)
             ==> Patched(u, enc, request) == u)
  {
  }

  /** Every user has exactly one role, so the three role queries split the
      users between them. */
  lemma RolesPartitionUsers(users: map<int, User>)
    ensures UsersByRole(users, Customer).Keys + UsersByRole(users, Admin).Keys
            + UsersByRole(users, Merchant).Keys == users.Keys
    ensures UsersByRole(users, Customer).Keys !! UsersByRole(users, Admin).Keys
    ensures UsersByRole(users, Customer).Keys !! UsersByRole(users, Merchant).Keys
    ensures UsersByRole(users, Admin).Keys !! UsersByRole(users, Merchant).Keys
  {
    var c, a, m := UsersByRole(users, Customer), UsersByRole(users, Admin), UsersByRole(users, Merchant);
    forall id | id in users ensures id in c.Keys + a.Keys + m.Keys {
      match users[id].role
      case Customer => assert id in c;
      case Admin => assert id in a;
      case Merchant => assert id in m;
    }
  }

  /** Toggling an account twice restores it. */
  method ToggleUserTwice(db: Db, id: int)
    requires db.Valid()
    modifies db
    ensures db.Valid()
    ensures db.users == old(db.users)
  {
    var first := ToggleUserStatus(db, id);
    var second := ToggleUserStatus(db, id);
  }
}

/**
 * The account service: registration with unique e-mails, the login gates,
 * the profile lookup and the single-field updates of a user record.
 *
 * Password hashing and comparison and token signing are foreign libraries:
 * the hash of a new password is supplied, the comparison is a supplied
 * predicate, and signing is a supplied function of the token's claims.
 */
module AuthService {
  import opened Records
  import opened RatingMath
  import opened Store

  const EmailTaken := AppError(400, "Email already registered")
  const InvalidCredentials := AppError(401, "Invalid email or password")
  const NotActive := AppError(403, "Account is not active")
  const UserNotFound := AppError(404, "User not found")
  const OnlyProvidersAvailability := AppError(403, "Only providers can update availability")

  /** What a signed token carries. */
  datatype Claims = Claims(id: nat, email: string, role: Role)

  /** A user as registerUser and loginUser return it: every field but the password hash. */
  datatype PublicUser = PublicUser(
    id: nat,
    email: string,
    firstName: string,
    lastName: string,
    phone: Option<string>,
    role: Role,
    status: UserStatus,
    currentLatitude: Option<real>,
    currentLongitude: Option<real>,
    isAvailable: bool,
    serviceRadius: Option<real>,
    balance: real,
    averageRating: real,
    totalRatings: nat,
    fcmToken: Option<string>,
    stripeCustomerId: Option<string>,
    lastActiveAt: Option<nat>)

  /**
   * A user as getUserProfile selects it: the identity, contact, role,
   * position, availability, balance and rating fields, without the
   * password hash, the push token or the Stripe customer id.
   */
  datatype Profile = Profile(
    id: nat,
    email: string,
    firstName: string,
    lastName: string,
    phone: Option<string>,
    role: Role,
    status: UserStatus,
    currentLatitude: Option<real>,
    currentLongitude: Option<real>,
    isAvailable: bool,
    serviceRadius: Option<real>,
    averageRating: real,
    totalRatings: nat,
    balance: real,
    lastActiveAt: Option<nat>)

  /** A new account as registerUser selects it: identity, contact, role and status. */
  datatype Registered = Registered(
    id: nat,
    email: string,
    firstName: string,
    lastName: string,
    phone: Option<string>,
    role: Role,
    status: UserStatus)

  /** A successful registration or login: the view of the user returned and a signed token. */
  datatype Session<U> = Session(user: U, token: string)

  /** The registration form. */
  datatype Registration = Registration(
    email: string,
    password: string,
    firstName: string,
    lastName: string,
    phone: Option<string>,
    role: Role)

  /** The stored user behind a public view, given back its password hash. */
  function WithHash(p: PublicUser, passwordHash: string): User {
    User(p.email, passwordHash, p.firstName, p.lastName, p.phone, p.role, p.status,
         p.currentLatitude, p.currentLongitude, p.isAvailable, p.serviceRadius,
         p.balance, p.averageRating, p.totalRatings, p.fcmToken, p.stripeCustomerId, p.lastActiveAt)
  }

  /** `const { password: _, ...userWithoutPassword } = user`: the view loses the hash and nothing else. */
  function Public(id: nat, u: User): (p: PublicUser)
    ensures p.id == id && WithHash(p, u.passwordHash) == u
  {
    PublicUser(id, u.email, u.firstName, u.lastName, u.phone, u.role, u.status,
               u.currentLatitude, u.currentLongitude, u.isAvailable, u.serviceRadius,
               u.balance, u.averageRating, u.totalRatings, u.fcmToken, u.stripeCustomerId, u.lastActiveAt)
  }

  /** The fields registerUser selects from the created user. */
  function RegisteredOf(id: nat, u: User): Registered {
    Registered(id, u.email, u.firstName, u.lastName, u.phone, u.role, u.status)
  }

  /** The fields getUserProfile selects from a stored user. */
  function ProfileOf(id: nat, u: User): Profile {
    Profile(id, u.email, u.firstName, u.lastName, u.phone, u.role, u.status,
            u.currentLatitude, u.currentLongitude, u.isAvailable, u.serviceRadius,
            u.averageRating, u.totalRatings, u.balance, u.lastActiveAt)
  }

  /**
   * The profile reveals none of the secrets: two users that differ only in
   * password hash, push token and Stripe customer id have the same profile,
   * and two users whose profiles agree differ in nothing else.
   */
  lemma ProfileHidesSecrets(id: nat, u: User, v: User)
    ensures ProfileOf(id, u) == ProfileOf(id, v) <==>
      u.(passwordHash := v.passwordHash, fcmToken := v.fcmToken, stripeCustomerId := v.stripeCustomerId) == v
  {
  }

  /** The user registered with an e-mail address, if any. */
  function FindUserByEmail(users: seq<User>, email: string): (r: Option<nat>)
    ensures r.Some? ==> r.value < |users| && users[r.value].email == email
    ensures r.None? ==> forall i :: 0 <= i < |users| ==> users[i].email != email
  {
    LastWhere(users, (u: User) => u.email == email)
  }

  /** With unique e-mails, the user found is the only one with that address. */
  lemma {:induction false} FoundUserIsUnique(users: seq<User>, email: string, i: nat)
    requires EmailsUnique(users) && i < |users| && users[i].email == email
    ensures FindUserByEmail(users, email) == Some(i)
  {
    if i < |users| - 1 {
      assert users[i].email != users[|users| - 1].email;
      FoundUserIsUnique(users[..|users| - 1], email, i);
    }
  }

  /**
   * The record a registration creates: the given identity and role, the
   * password only as its hash, an active account with no position, no
   * availability, no balance and no ratings.
   */
  function NewUser(d: Registration, passwordHash: string): (u: User)
    ensures u.email == d.email && u.passwordHash == passwordHash && u.role == d.role
    ensures u.balance == 0.0 && u.totalRatings == 0 && u.averageRating == 0.0 && u.status == Active
  {
    User(d.email, passwordHash, d.firstName, d.lastName, d.phone, d.role, Active,
         None, None, false, None, 0.0, 0.0, 0, None, None, None)
  }

  /**
   * registerUser: an e-mail already registered gives 400 and adds nobody;
   * otherwise the new user is appended and a token for its id, e-mail and
   * role is returned with the fields registerUser selects.
   */
  method RegisterUser(db: Db, d: Registration, passwordHash: string, sign: Claims -> string) returns (r: Result<Session<Registered>>)
    requires db.Valid()
    modifies db`users
    ensures db.Valid()
    ensures FindUserByEmail(old(db.users), d.email).Some? ==> r == Failure(EmailTaken) && unchanged(db)
    ensures FindUserByEmail(old(db.users), d.email).None? ==>
      var id := |old(db.users)|;
      && db.users == old(db.users) + [NewUser(d, passwordHash)]
      && FindUserByEmail(db.users, d.email) == Some(id)
      && r == Success(Session(RegisteredOf(id, NewUser(d, passwordHash)), sign(Claims(id, d.email, d.role))))
  {
    if FindUserByEmail(db.users, d.email).Some? {
      return Failure(EmailTaken);
    }
    var u := NewUser(d, passwordHash);
    var id := |db.users|;
    RatingsAboutUsers(db.users, db.missions, db.ratings);
    NoRatingsAbout(db.ratings, id);
    db.users := db.users + [u];
    r := Success(Session(RegisteredOf(id, u), sign(Claims(id, u.email, u.role))));
  }

  /**
   * loginUser: an unknown e-mail gives 401, an account that is not active
   * 403 (before the password is looked at), a wrong password 401 with the
   * same error as an unknown e-mail. Otherwise only lastActiveAt changes,
   * and the user as read before that update is returned with a token.
   */
  method LoginUser(db: Db, email: string, password: string, passwordMatches: (string, string) -> bool,
                   now: nat, sign: Claims -> string)
    returns (r: Result<Session<PublicUser>>)
    requires db.Valid()
    modifies db`users
    ensures db.Valid()
    ensures FindUserByEmail(old(db.users), email).None? ==> r == Failure(InvalidCredentials) && unchanged(db)
    ensures FindUserByEmail(old(db.users), email).Some? ==>
      var id := FindUserByEmail(old(db.users), email).value;
      var u := old(db.users)[id];
      if u.status != Active then r == Failure(NotActive) && unchanged(db)
      else if !passwordMatches(password, u.passwordHash) then r == Failure(InvalidCredentials) && unchanged(db)
      else
        && db.users == old(db.users)[id := u.(lastActiveAt := Some(now))]
        && r == Success(Session(Public(id, u), sign(Claims(id, u.email, u.role))))
  {
    var found := FindUserByEmail(db.users, email);
    if found.None? {
      return Failure(InvalidCredentials);
    }
    var id := found.value;
    var u := db.users[id];
    if u.status != Active {
      return Failure(NotActive);
    }
    if !passwordMatches(password, u.passwordHash) {
      return Failure(InvalidCredentials);
    }
    UpdateUserKeepsUsersOk(db.users, db.ratings, id, u.(lastActiveAt := Some(now)));
    db.users := db.users[id := u.(lastActiveAt := Some(now))];
    r := Success(Session(Public(id, u), sign(Claims(id, u.email, u.role))));
  }

  /** getUserProfile: the selected fields of an existing user, 404 otherwise. */
  function GetUserProfile(users: seq<User>, userId: nat): (r: Result<Profile>)
    ensures userId >= |users| ==> r == Failure(UserNotFound)
    ensures userId < |users| ==> r == Success(ProfileOf(userId, users[userId]))
  {
    if userId >= |users| then Failure(UserNotFound) else Success(ProfileOf(userId, users[userId]))
  }

  /** updateUserLocation: sets the current position and lastActiveAt of an existing user and nothing else. */
  method UpdateUserLocation(db: Db, userId: nat, latitude: real, longitude: real, now: nat) returns (r: Result<()>)
    requires db.Valid()
    modifies db`users
    ensures db.Valid()
    ensures userId >= |old(db.users)| ==> r == Failure(RecordMissing) && unchanged(db)
    ensures userId < |old(db.users)| ==>
      && r == Success(())
      && db.users == old(db.users)[userId := old(db.users)[userId].(
           currentLatitude := Some(latitude), currentLongitude := Some(longitude), lastActiveAt := Some(now))]
  {
    if userId >= |db.users| {
      return Failure(RecordMissing);
    }
    var u := db.users[userId].(currentLatitude := Some(latitude), currentLongitude := Some(longitude), lastActiveAt := Some(now));
    UpdateUserKeepsUsersOk(db.users, db.ratings, userId, u);
    db.users := db.users[userId := u];
    r := Success(());
  }

  /** updateProviderAvailability: 403 with no change unless the user is a provider; otherwise only isAvailable is set. */
  method UpdateProviderAvailability(db: Db, userId: nat, isAvailable: bool) returns (r: Result<bool>)
    requires db.Valid()
    modifies db`users
    ensures db.Valid()
    ensures !HasRole(old(db.users), userId, Provider) ==> r == Failure(OnlyProvidersAvailability) && unchanged(db)
    ensures HasRole(old(db.users), userId, Provider) ==>
      && r == Success(isAvailable)
      && db.users == old(db.users)[userId := old(db.users)[userId].(isAvailable := isAvailable)]
  {
    if !HasRole(db.users, userId, Provider) {
      return Failure(OnlyProvidersAvailability);
    }
    var u := db.users[userId].(isAvailable := isAvailable);
    UpdateUserKeepsUsersOk(db.users, db.ratings, userId, u);
    db.users := db.users[userId := u];
    r := Success(isAvailable);
  }

  /** updateFcmToken: sets the push token of an existing user and nothing else. */
  method UpdateFcmToken(db: Db, userId: nat, fcmToken: string) returns (r: Result<()>)
    requires db.Valid()
    modifies db`users
    ensures db.Valid()
    ensures userId >= |old(db.users)| ==> r == Failure(RecordMissing) && unchanged(db)
    ensures userId < |old(db.users)| ==>
      && r == Success(())
      && db.users == old(db.users)[userId := old(db.users)[userId].(fcmToken := Some(fcmToken))]
  {
    if userId >= |db.users| {
      return Failure(RecordMissing);
    }
    var u := db.users[userId].(fcmToken := Some(fcmToken));
    UpdateUserKeepsUsersOk(db.users, db.ratings, userId, u);
    db.users := db.users[userId := u];
    r := Success(());
  }
}

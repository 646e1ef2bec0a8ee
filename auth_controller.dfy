/** The user registry behind register, login and getCurrentUser. Password
    hashing and token signing are libraries outside this model: a digest is
    the symbolic value bcrypt would produce for a password and a salt, and a
    token is the payload it carries together with the kind of secret that
    signed it. */
module AuthController {
  import opened Common

  const MissingFields: string := "Missing required fields"
  const UserExists: string := "User already exists"
  const NationalIdTaken: string := "User already exists with this national ID number"
  const InvalidCredentials: string := "Invalid Credentials"
  const NotAuthenticated: string := "User not authenticated"
  const InvalidUser: string := "Invalid user object"
  const DefaultRole: string := "user"
  const BadRequest: nat := 400

  /** bcrypt.hash(password, 10) under a given salt. */
  datatype Digest = Digest(salt: nat, password: string)

  /** bcrypt.compare: a password matches the digest made from it. */
  predicate Matches(password: string, d: Digest)
  {
    d.password == password
  }

  datatype Payload = Payload(id: UserId, role: string)

  /** A signed token: its payload and whether the refresh secret signed it. */
  datatype Token = Token(payload: Payload, refresh: bool)

  datatype Session = Session(accessToken: Token, refreshToken: Token, role: string)

  datatype User = User(
    id: UserId,
    fullName: string,
    email: string,
    password: Digest,
    phoneNumber: Option<string>,
    nationalId: string,
    role: string,
    wallet: Wallet)

  /** The getCurrentUser response body. */
  datatype Profile = Profile(fullName: string, email: string, phoneNumber: Option<string>, nationalIdNumber: string)

  /** The four fields register requires (phoneNumber is optional). */
  predicate RequiredFields(fullName: string, email: string, password: string, nationalId: string)
  {
    fullName != "" && email != "" && password != "" && nationalId != ""
  }

  /** The tokens register and login issue for a user. */
  function SessionFor(u: User): Session
  {
    Session(Token(Payload(u.id, u.role), false), Token(Payload(u.id, u.role), true), u.role)
  }

  /** Position of the user with this email: findOne({ email }). */
  function FindByEmail(users: seq<User>, email: string): (r: Option<nat>)
    ensures r.Some? ==> r.value < |users| && users[r.value].email == email
    ensures r.None? <==> forall k :: 0 <= k < |users| ==> users[k].email != email
  {
    if users == [] then None
    else if users[|users| - 1].email == email then Some(|users| - 1)
    else FindByEmail(users[..|users| - 1], email)
  }

  /** findOne({ $or: [{ email }, { nationalId }] }) finds someone. */
  predicate Clashes(users: seq<User>, email: string, nationalId: string)
  {
    exists k :: 0 <= k < |users| && (users[k].email == email || users[k].nationalId == nationalId)
  }

  class UserTable {
    var users: seq<User>

    /** Ids are positions; email and national id are each unique; every
        stored user has the required fields. */
    ghost predicate Valid()
      reads this
    {
      && (forall k :: 0 <= k < |users| ==> users[k].id == k)
      && (forall j, k :: 0 <= j < k < |users| ==> users[j].email != users[k].email)
      && (forall j, k :: 0 <= j < k < |users| ==> users[j].nationalId != users[k].nationalId)
      && (forall k :: 0 <= k < |users| ==> users[k].fullName != "" && users[k].email != "" && users[k].nationalId != "")
    }

    constructor ()
      ensures Valid() && users == []
    {
      users := [];
    }

    /** register: 400 for a missing field, 400 when the email or the national
        id is taken, otherwise a new user with the hashed password, the
        given role or "user", the fresh wallet, and tokens for them. */
    method Register(
      fullName: string, email: string, password: string, phoneNumber: Option<string>,
      nationalId: string, role: string, salt: nat, wallet: Wallet)
      returns (r: Result<Session>)
      requires Valid()
      modifies this
      ensures Valid()
      ensures !RequiredFields(fullName, email, password, nationalId) ==> r == Err(400, MissingFields)
      ensures RequiredFields(fullName, email, password, nationalId) && Clashes(old(users), email, nationalId)
        ==> r == Err(400, UserExists)
      // the national-id-only refusal cannot be reached
      ensures r != Err(400, NationalIdTaken)
      ensures r.Ok? <==> RequiredFields(fullName, email, password, nationalId) && !Clashes(old(users), email, nationalId)
      ensures r.Ok? ==>
        var u := User(|old(users)|, fullName, email, Digest(salt, password), phoneNumber, nationalId,
                      if role == "" then DefaultRole else role, wallet);
        && users == old(users) + [u]
        && r.value == SessionFor(u)
      ensures r.Err? ==> users == old(users)
    {
      if !RequiredFields(fullName, email, password, nationalId) {
        return Err(400, MissingFields);
      }
      if Clashes(users, email, nationalId) {
        return Err(400, UserExists);
      }
      if exists k :: 0 <= k < |users| && users[k].nationalId == nationalId {
        return Err(BadRequest, NationalIdTaken);
      }
      var u := User(|users|, fullName, email, Digest(salt, password), phoneNumber, nationalId,
                    if role == "" then DefaultRole else role, wallet);
      users := users + [u];
      r := Ok(SessionFor(u));
    }

    /** login: the same 400 for an unknown email and for a wrong password. */
    method Login(email: string, password: string) returns (r: Result<Session>)
      requires Valid()
      ensures r.Err? ==> r == Err(400, InvalidCredentials)
      ensures r.Ok? <==> exists k :: 0 <= k < |users| && users[k].email == email && Matches(password, users[k].password)
      ensures r.Ok? ==> exists k :: 0 <= k < |users| && users[k].email == email && r.value == SessionFor(users[k])
    {
      var found := FindByEmail(users, email);
      if found.None? {
        return Err(400, InvalidCredentials);
      }
      var u := users[found.value];
      if !Matches(password, u.password) {
        return Err(400, InvalidCredentials);
      }
      r := Ok(SessionFor(u));
    }
  }

  /** getCurrentUser: 401 without a user, 400 without a full name, otherwise
      the four profile fields. */
  function GetCurrentUser(user: Option<User>): (r: Result<Profile>)
    ensures user.None? ==> r == Err(401, NotAuthenticated)
    ensures user.Some? && user.value.fullName == "" ==> r == Err(400, InvalidUser)
    ensures r.Ok? <==> user.Some? && user.value.fullName != ""
    ensures r.Ok? ==>
      && r.value.fullName == user.value.fullName && r.value.email == user.value.email
      && r.value.phoneNumber == user.value.phoneNumber && r.value.nationalIdNumber == user.value.nationalId
  {
    if user.None? then Err(401, NotAuthenticated)
    else if user.value.fullName == "" then Err(400, InvalidUser)
    else Ok(Profile(user.value.fullName, user.value.email, user.value.phoneNumber, user.value.nationalId))
  }

  /** Register then log in with the same email and password: the login
      succeeds and carries the new user's id and role. */
  method RegisterThenLogin(email: string, password: string, nationalId: string, salt: nat, wallet: Wallet)
    returns (registered: Result<Session>, loggedIn: Result<Session>)
    requires RequiredFields("Ada", email, password, nationalId)
    ensures registered.Ok? && loggedIn.Ok?
    ensures loggedIn.value == registered.value
    ensures loggedIn.value.accessToken.payload == Payload(0, DefaultRole)
  {
    var table := new UserTable();
    registered := table.Register("Ada", email, password, None, nationalId, "", salt, wallet);
    loggedIn := table.Login(email, password);
    assert table.users[0].email == email;
  }

  /** A wrong password and an unknown email get the same answer. */
  method WrongPasswordLooksLikeUnknownEmail(email: string, password: string, other: string, wallet: Wallet)
    returns (wrongPassword: Result<Session>, unknownEmail: Result<Session>)
    requires RequiredFields("Ada", email, password, "CM-1") && other != password && other != email
    ensures wrongPassword.Err? && wrongPassword == unknownEmail
  {
    var table := new UserTable();
    var _ := table.Register("Ada", email, password, None, "CM-1", "", 0, wallet);
    wrongPassword := table.Login(email, other);
    unknownEmail := table.Login(other, password);
  }
}

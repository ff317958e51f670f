/** server/controllers/auth.controller.js: registration, login and the
    current-user lookup. Passwords are hashed and compared by bcrypt, which
    is not modelled: the hash to store is passed in, and `compare` stands for
    `bcrypt.compare`. A token is represented by the payload `jwt.sign`
    receives. The clock is the parameter `now`. */
module AuthController {

  import opened Common
  import opened Models
  import opened Db
  import opened AuthMiddleware

  /** The user fields every reply of this controller shows; the password
      hash is never among them. */
  datatype UserReply = UserReply(
    id: UserId, username: string, email: string,
    firstName: Option<string>, lastName: Option<string>, role: string)

  datatype RegisterReply = RegisterReply(user: UserReply, token: Claims)
  datatype LoginReply = LoginReply(user: UserReply, hasMembership: bool, token: Claims)
  datatype CurrentUserReply = CurrentUserReply(
    user: UserReply, profilePicture: Option<string>, hasMembership: bool, createdAt: int)

  const DuplicateIdentity := Error(400, "Username or email already exists")
  const InvalidCredentials := Error(400, "Invalid credentials")
  const UserNotFound := Error(404, "User not found")
  const RegisterServerError := Error(500, "Server error during registration")
  const LoginServerError := Error(500, "Server error during login")
  const CurrentUserServerError := Error(500, "Server error retrieving user data")

  function ReplyOf(id: UserId, u: User): (r: UserReply)
    ensures r.id == id && r.username == u.username && r.email == u.email && r.role == u.role
    ensures r.firstName == u.firstName && r.lastName == u.lastName
  {
    UserReply(id, u.username, u.email, u.firstName, u.lastName, u.role)
  }

  /** The row `register` inserts: always a member, never an admin. */
  function NewMember(username: string, email: string, passwordHash: string,
                     firstName: Field<string>, lastName: Field<string>, now: int): (u: User)
    ensures u.role == MemberRole && u.passwordHash == passwordHash
    ensures u.username == username && u.email == email
    ensures u.profilePicture.None? && u.createdAt == now
  {
    User(username, email, passwordHash, ToColumn(firstName), ToColumn(lastName), None, MemberRole, now)
  }

  /** `register`: refuses a username or an email that is already in use;
      otherwise inserts a member under a fresh id and issues a token that
      carries no membership flag. */
  method Register(db: Store, username: string, email: string, passwordHash: string,
                  firstName: Field<string>, lastName: Field<string>, now: int)
      returns (r: Result<RegisterReply>)
    requires db.Valid()
    modifies db`users, db`nextUserId
    ensures db.Valid()
    ensures r.Err? <==> old(db.UsernameTaken(username) || db.EmailTaken(email))
    ensures r.Err? ==> r.error == DuplicateIdentity && db.users == old(db.users)
    ensures r.Ok? ==>
              var id := r.value.user.id;
              && id !in old(db.users)
              && db.users == old(db.users)[id := NewMember(username, email, passwordHash, firstName, lastName, now)]
              && r.value.user == ReplyOf(id, db.users[id])
              && r.value.token == Claims(id, MemberRole, None)
  {
    if db.UsernameTaken(username) || db.EmailTaken(email) {
      r := Err(DuplicateIdentity);
      return;
    }
    var id := db.nextUserId;
    var user := NewMember(username, email, passwordHash, firstName, lastName, now);
    db.users := db.users[id := user];
    db.nextUserId := db.nextUserId + 1;
    r := Ok(RegisterReply(ReplyOf(id, user), Claims(id, MemberRole, None)));
  }

  /** `login`: an unknown email and a wrong password get the same answer, so
      the reply does not reveal which emails are registered. On success the
      membership flag is computed once and put both in the reply and in the
      token. A missing email makes the `where` throw; a `null` one looks for
      `email IS NULL` and finds nobody. A missing or `null` password makes
      `bcrypt.compare` throw once a user is found. */
  method Login(db: Store, email: Field<string>, password: Field<string>, compare: (string, string) -> bool, now: int)
      returns (r: Result<LoginReply>)
    requires db.Valid()
    ensures r.Err? ==> r.error == InvalidCredentials || r.error == LoginServerError
    ensures r.Err? && r.error == LoginServerError <==>
              email.Absent? || (email.Given? && db.EmailTaken(email.value) && !password.Given?)
    ensures r.Ok? <==>
              && email.Given? && password.Given?
              && exists k :: k in db.users && db.users[k].email == email.value && compare(password.value, db.users[k].passwordHash)
    ensures r.Ok? ==>
              var id := r.value.user.id;
              && id in db.users && db.users[id].email == email.value
              && r.value.user == ReplyOf(id, db.users[id])
              && r.value.hasMembership == db.HasLiveMembership(id, now)
              && r.value.token == Claims(id, db.users[id].role, Some(r.value.hasMembership))
  {
    if email.Absent? {
      r := Err(LoginServerError);
      return;
    }
    if email.Null? {
      r := Err(InvalidCredentials);
      return;
    }
    var found := db.UserByEmail(email.value);
    if found.None? {
      r := Err(InvalidCredentials);
      return;
    }
    var id := found.value;
    if !password.Given? {
      r := Err(LoginServerError);
      return;
    }
    if !compare(password.value, db.users[id].passwordHash) {
      r := Err(InvalidCredentials);
      return;
    }
    var live := db.HasLiveMembership(id, now);
    var user := db.users[id];
    r := Ok(LoginReply(ReplyOf(id, user), live, Claims(id, user.role, Some(live))));
  }

  /** `getCurrentUser`: the membership flag is recomputed from the table on
      every call, whatever the token says. */
  method GetCurrentUser(db: Store, userId: UserId, now: int) returns (r: Result<CurrentUserReply>)
    ensures r.Err? <==> userId !in db.users
    ensures r.Err? ==> r.error == UserNotFound
    ensures r.Ok? ==>
              && r.value.user == ReplyOf(userId, db.users[userId])
              && r.value.profilePicture == db.users[userId].profilePicture
              && r.value.createdAt == db.users[userId].createdAt
              && r.value.hasMembership == db.HasLiveMembership(userId, now)
  {
    if userId !in db.users {
      r := Err(UserNotFound);
      return;
    }
    var user := db.users[userId];
    r := Ok(CurrentUserReply(ReplyOf(userId, user), user.profilePicture, db.HasLiveMembership(userId, now), user.createdAt));
  }

  // The file imports `User` and `Membership` but not `Op`. Each handler
  // evaluates `Op.or` or `Op.gte` inside its `try`, so the ReferenceError
  // lands in its `catch`. The functions below are the handlers as written;
  // the methods above are the handlers as intended.

  /** `register` as written: `Op.or` is evaluated in the uniqueness query,
      before anything is read or written. */
  function RegisterAsWritten(users: map<UserId, User>, username: string, email: string): (r: Result<RegisterReply>)
    ensures r.Err? && r.error.Status() == 500
  {
    Err(RegisterServerError)
  }

  /** A registration the intended handler accepts is refused as written. */
  lemma RegisterAsWrittenRefusesFreshUser(db: Store, username: string, email: string)
    requires db.Valid()
    requires !db.UsernameTaken(username) && !db.EmailTaken(email)
    ensures RegisterAsWritten(db.users, username, email) == Err(RegisterServerError)
  {
  }

  /** `login` as written: the credentials are checked, then `Op.gte` in the
      membership query throws. */
  function LoginAsWritten(db: Store, email: string, password: string, compare: (string, string) -> bool): (r: Result<LoginReply>)
    reads db`users
    requires UsersOk(db.users)
    ensures r.Err?
    ensures r.error == LoginServerError <==>
              exists k :: k in db.users && db.users[k].email == email && compare(password, db.users[k].passwordHash)
  {
    match db.UserByEmail(email)
    case None => Err(InvalidCredentials)
    case Some(id) => if compare(password, db.users[id].passwordHash) then Err(LoginServerError) else Err(InvalidCredentials)
  }

  /** `getCurrentUser` as written: the user is found, then `Op.gte` throws. */
  function GetCurrentUserAsWritten(users: map<UserId, User>, userId: UserId): (r: Result<CurrentUserReply>)
    ensures r.Err?
    ensures r.error == CurrentUserServerError <==> userId in users
  {
    if userId !in users then Err(UserNotFound) else Err(CurrentUserServerError)
  }
}

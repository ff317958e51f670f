/** server/controllers/user.controller.js: a member's own profile,
    password, progress and notes. Every route runs after `verifyToken`, so
    `userId` is the id the token names. */
module UserController {

  import opened Common
  import opened Models
  import opened Strings
  import opened Ordering
  import opened Db
  import opened TechniqueController

  const UserNotFound := Error(404, "User not found")
  const UsernameExists := Error(400, "Username already exists")
  const EmailExists := Error(400, "Email already exists")
  const WrongCurrentPassword := Error(400, "Current password is incorrect")
  const WeakPassword := Error(400, "New password must be at least 6 characters")
  const NoteNotFound := Error(404, "Note not found")
  const ProgressServerError := Error(500, "Server error fetching progress")
  const NoteServerError := Error(500, "Server error updating note")
  const PasswordServerError := Error(500, "Server error changing password")

  const ProfileUpdated := "Profile updated successfully"
  const PasswordUpdated := "Password updated successfully"
  const NoteCreated := "Note created successfully"
  const NoteUpdated := "Note updated successfully"
  const NoteDeleted := "Note deleted successfully"

  /** The shortest password `changePassword` accepts, counted in characters. */
  const MinPasswordLength := 6

  /** A user as the profile routes show it: everything but the password hash. */
  datatype Profile = Profile(
    id: UserId, username: string, email: string, firstName: Option<string>,
    lastName: Option<string>, profilePicture: Option<string>, role: string)

  function ProfileOf(id: UserId, u: User): (p: Profile)
    ensures p.id == id && p.username == u.username && p.email == u.email && p.role == u.role
    ensures p.firstName == u.firstName && p.lastName == u.lastName && p.profilePicture == u.profilePicture
  {
    Profile(id, u.username, u.email, u.firstName, u.lastName, u.profilePicture, u.role)
  }

  /** `getProfile`: the user without the password, with the membership row
      of the `hasOne` association if there is one. */
  datatype ProfileWithMembership = ProfileWithMembership(profile: Profile, membership: Option<Membership>)

  method GetProfile(db: Store, userId: UserId) returns (r: Result<ProfileWithMembership>)
    requires db.Valid()
    ensures r.Err? <==> userId !in db.users
    ensures r.Err? ==> r.error == UserNotFound
    ensures r.Ok? ==> r.value.profile == ProfileOf(userId, db.users[userId])
    ensures r.Ok? ==> (r.value.membership.Some? <==> db.HasMembershipRow(userId))
    ensures r.Ok? && r.value.membership.Some? ==>
              r.value.membership.value in db.memberships.Values && r.value.membership.value.userId == userId
  {
    if userId !in db.users {
      r := Err(UserNotFound);
      return;
    }
    var membership := None;
    if db.HasMembershipRow(userId) {
      var k :| k in db.memberships && db.memberships[k].userId == userId;
      membership := Some(db.memberships[k]);
    }
    r := Ok(ProfileWithMembership(ProfileOf(userId, db.users[userId]), membership));
  }

  /** The uniqueness checks `updateProfile` and the admin's `updateUser`
      make before writing: a username, then an email, is looked up only when
      it is given, non-empty and different from the user's current one. */
  function IdentityClash(users: map<UserId, User>, userId: UserId, username: Field<string>, email: Field<string>)
      : (e: Option<HttpError>)
    requires userId in users
    ensures e.None? <==>
              && !(TruthyStr(username) && username.value != users[userId].username && UsernameInUse(users, username.value))
              && !(TruthyStr(email) && email.value != users[userId].email && EmailInUse(users, email.value))
    ensures e.Some? ==> e.value == UsernameExists || e.value == EmailExists
    ensures e == Some(UsernameExists) <==>
              TruthyStr(username) && username.value != users[userId].username && UsernameInUse(users, username.value)
  {
    if TruthyStr(username) && username.value != users[userId].username && UsernameInUse(users, username.value) then
      Some(UsernameExists)
    else if TruthyStr(email) && email.value != users[userId].email && EmailInUse(users, email.value) then
      Some(EmailExists)
    else None
  }

  predicate UsernameInUse(users: map<UserId, User>, name: string)
  {
    exists k :: k in users && users[k].username == name
  }

  predicate EmailInUse(users: map<UserId, User>, email: string)
  {
    exists k :: k in users && users[k].email == email
  }

  /** The row `updateProfile` writes: each of the four fields is replaced
      when the request gives it a non-empty value. Role, password,
      picture and creation time are never touched. */
  function MergedProfile(u: User, firstName: Field<string>, lastName: Field<string>,
                         email: Field<string>, username: Field<string>): (v: User)
    ensures v.role == u.role && v.passwordHash == u.passwordHash
    ensures v.profilePicture == u.profilePicture && v.createdAt == u.createdAt
    ensures v.username == (if TruthyStr(username) then username.value else u.username)
    ensures v.email == (if TruthyStr(email) then email.value else u.email)
    ensures v.firstName == (if TruthyStr(firstName) then Some(firstName.value) else u.firstName)
    ensures v.lastName == (if TruthyStr(lastName) then Some(lastName.value) else u.lastName)
  {
    u.(firstName := OrOptStr(firstName, u.firstName), lastName := OrOptStr(lastName, u.lastName),
       email := OrStr(email, u.email), username := OrStr(username, u.username))
  }

  /** When the checks pass, the merged row keeps usernames and emails unique. */
  lemma MergedIdentityStaysUnique(users: map<UserId, User>, userId: UserId, v: User,
                                  username: Field<string>, email: Field<string>)
    requires UsersOk(users) && userId in users
    requires IdentityClash(users, userId, username, email).None?
    requires v.username == OrStr(username, users[userId].username)
    requires v.email == OrStr(email, users[userId].email)
    ensures UsersOk(users[userId := v])
  {
    UsersOkAfterUpdate(users, userId, v);
  }

  datatype ProfileReply = ProfileReply(message: string, user: Profile)

  /** `updateProfile` */
  method UpdateProfile(db: Store, userId: UserId, firstName: Field<string>, lastName: Field<string>,
                       email: Field<string>, username: Field<string>)
      returns (r: Result<ProfileReply>)
    requires db.Valid()
    modifies db`users
    ensures db.Valid()
    ensures userId !in old(db.users) ==> r == Err(UserNotFound)
    ensures userId in old(db.users) ==>
              (r.Err? <==> IdentityClash(old(db.users), userId, username, email).Some?)
    ensures r.Err? && userId in old(db.users) ==> Some(r.error) == IdentityClash(old(db.users), userId, username, email)
    ensures r.Err? ==> db.users == old(db.users)
    ensures r.Ok? ==>
              && db.users == old(db.users)[userId := MergedProfile(old(db.users[userId]), firstName, lastName, email, username)]
              && r.value == ProfileReply(ProfileUpdated, ProfileOf(userId, db.users[userId]))
  {
    if userId !in db.users {
      r := Err(UserNotFound);
      return;
    }
    var clash := IdentityClash(db.users, userId, username, email);
    if clash.Some? {
      r := Err(clash.value);
      return;
    }
    var v := MergedProfile(db.users[userId], firstName, lastName, email, username);
    MergedIdentityStaysUnique(db.users, userId, v, username, email);
    db.users := db.users[userId := v];
    r := Ok(ProfileReply(ProfileUpdated, ProfileOf(userId, v)));
  }

  /** `!newPassword || newPassword.length < 6` */
  predicate TooWeak(newPassword: Field<string>)
  {
    !TruthyStr(newPassword) || |newPassword.value| < MinPasswordLength
  }

  /** `changePassword`: the current password is checked before the new one
      is. `compare` stands for `bcrypt.compare`, which throws on a missing or
      `null` current password, and `newHash` for the bcrypt hash of the new
      password. */
  method ChangePassword(db: Store, userId: UserId, currentPassword: Field<string>, newPassword: Field<string>,
                        compare: (string, string) -> bool, newHash: string)
      returns (r: Result<string>)
    requires db.Valid()
    modifies db`users
    ensures db.Valid()
    ensures userId !in old(db.users) ==> r == Err(UserNotFound)
    ensures userId in old(db.users) && !currentPassword.Given? ==> r == Err(PasswordServerError)
    ensures userId in old(db.users) && currentPassword.Given? &&
            !compare(currentPassword.value, old(db.users[userId]).passwordHash) ==>
              r == Err(WrongCurrentPassword)
    ensures userId in old(db.users) && currentPassword.Given? &&
            compare(currentPassword.value, old(db.users[userId]).passwordHash) && TooWeak(newPassword) ==>
              r == Err(WeakPassword)
    ensures r.Ok? <==>
              && userId in old(db.users) && currentPassword.Given?
              && compare(currentPassword.value, old(db.users[userId]).passwordHash) && !TooWeak(newPassword)
    ensures r.Err? ==> db.users == old(db.users)
    ensures r.Ok? ==>
              && r.value == PasswordUpdated
              && db.users == old(db.users)[userId := old(db.users[userId]).(passwordHash := newHash)]
  {
    if userId !in db.users {
      r := Err(UserNotFound);
      return;
    }
    var user := db.users[userId];
    if !currentPassword.Given? {
      r := Err(PasswordServerError);
      return;
    }
    if !compare(currentPassword.value, user.passwordHash) {
      r := Err(WrongCurrentPassword);
      return;
    }
    if TooWeak(newPassword) {
      r := Err(WeakPassword);
      return;
    }
    UsersOkAfterUpdate(db.users, userId, user.(passwordHash := newHash));
    db.users := db.users[userId := user.(passwordHash := newHash)];
    r := Ok(PasswordUpdated);
  }

  /** A row of `user_progress` with its key. */
  datatype ProgressRow = ProgressRow(userId: UserId, techniqueId: TechniqueId, progress: Progress)

  /** `ORDER BY last_viewed DESC` as MySQL sorts it: NULLs come last. */
  predicate RecentFirst(a: ProgressRow, b: ProgressRow)
  {
    match (a.progress.lastViewed, b.progress.lastViewed)
    case (_, None) => true
    case (None, Some(_)) => false
    case (Some(x), Some(y)) => y <= x
  }

  lemma RecentFirstIsPreorder()
    ensures TotalPreorder(RecentFirst)
  {
  }

  function ProgressFilter(userId: UserId, status: Option<string>): ProgressRow -> bool
  {
    (row: ProgressRow) => row.userId == userId && (Present(status) ==> SameIgnoringCase(ProgressStatusName(row.progress.status), status.value))
  }

  /** `getUserProgress` as intended: the user's own progress rows, of the
      given status if one is given, most recently viewed first. */
  function UserProgress(rows: seq<ProgressRow>, userId: UserId, status: Option<string>,
                        limit: Option<nat>, offset: Option<nat>): (r: Counted<ProgressRow>)
    ensures r.count == |Filter(rows, ProgressFilter(userId, status))|
    ensures |r.rows| == PageSize(r.count, Or(offset, 0), Or(limit, DefaultLimit))
    ensures forall i :: 0 <= i < |r.rows| ==>
              && r.rows[i] in rows && r.rows[i].userId == userId
              && (Present(status) ==> SameIgnoringCase(ProgressStatusName(r.rows[i].progress.status), status.value))
    ensures SortedBy(r.rows, RecentFirst)
    ensures TotalPreorder(RecentFirst) &&
            r.rows == Page(SortBy(Filter(rows, ProgressFilter(userId, status)), RecentFirst), Or(offset, 0), Or(limit, DefaultLimit))
  {
    RecentFirstIsPreorder();
    var page := Select(rows, ProgressFilter(userId, status), RecentFirst, Or(offset, 0), Or(limit, DefaultLimit));
    assert forall i :: 0 <= i < |page| ==> page[i] in page;
    Counted(|Filter(rows, ProgressFilter(userId, status))|, page)
  }

  /** `getUserProgress` as written: the `include` names `Category` and
      `BeltLevel`, which the file does not import, so every call ends in
      the `catch`. `getUserFavorites` and `getUserNotes` have the same
      `include` and fail in the same way. */
  function UserProgressAsWritten(rows: seq<ProgressRow>, userId: UserId, status: Option<string>,
                                 limit: Option<nat>, offset: Option<nat>): (r: Result<Counted<ProgressRow>>)
    ensures r == Err(ProgressServerError)
  {
    Err(ProgressServerError)
  }

  /** Even a user with progress rows gets none back as written. */
  lemma UserProgressAsWrittenHidesRows(rows: seq<ProgressRow>, userId: UserId)
    requires exists i :: 0 <= i < |rows| && rows[i].userId == userId
    ensures UserProgress(rows, userId, None, None, None).rows != []
    ensures UserProgressAsWritten(rows, userId, None, None, None).Err?
  {
    var i :| 0 <= i < |rows| && rows[i].userId == userId;
    assert rows[i] in Filter(rows, ProgressFilter(userId, None));
  }

  datatype NoteReply = NoteReply(message: string, noteId: NoteId, userNote: Note)

  /** `updateNote`: the single note of the user on the technique is created
      with the text, or has its text replaced. The `note` column is NOT NULL:
      a null note, or a missing one when the note would be created, fails
      validation and ends in the `catch`; a missing note on an existing row
      is dropped by `update`, which then writes nothing. `timestamps: false`
      leaves `updated_at` as it was. */
  method UpdateNote(db: Store, userId: UserId, techniqueId: TechniqueId, note: Field<string>, now: int)
      returns (r: Result<NoteReply>)
    requires db.Valid() && userId in db.users
    modifies db`notes, db`nextNoteId
    ensures db.Valid()
    ensures techniqueId !in db.techniques ==> r == Err(TechniqueNotFound)
    ensures techniqueId in db.techniques ==>
              (r.Err? <==> note.Null? || (note.Absent? && !old(db.HasNote(userId, techniqueId))))
    ensures techniqueId in db.techniques && r.Err? ==> r.error == NoteServerError
    ensures r.Err? ==> db.notes == old(db.notes)
    ensures r.Ok? ==>
              && r.value.noteId in db.notes
              && r.value.userNote == db.notes[r.value.noteId]
              && r.value.userNote.userId == userId && r.value.userNote.techniqueId == techniqueId
              && (r.value.message == NoteCreated <==> !old(db.HasNote(userId, techniqueId)))
              && (r.value.message == NoteUpdated <==> old(db.HasNote(userId, techniqueId)))
              && (old(db.HasNote(userId, techniqueId)) ==>
                    && r.value.noteId in old(db.notes)
                    && db.notes == old(db.notes)[r.value.noteId :=
                         old(db.notes[r.value.noteId]).(text := if note.Given? then note.value else old(db.notes[r.value.noteId]).text)])
              && (!old(db.HasNote(userId, techniqueId)) ==>
                    && note.Given?
                    && r.value.noteId !in old(db.notes)
                    && db.notes == old(db.notes)[r.value.noteId := Note(userId, techniqueId, note.value, now, now)])
  {
    if techniqueId !in db.techniques {
      r := Err(TechniqueNotFound);
      return;
    }
    if note.Null? {
      r := Err(NoteServerError);
      return;
    }
    if db.HasNote(userId, techniqueId) {
      var k :| k in db.notes && db.notes[k].userId == userId && db.notes[k].techniqueId == techniqueId;
      if note.Given? {
        var updated := db.notes[k].(text := note.value);
        db.SetNote(k, updated);
      }
      r := Ok(NoteReply(NoteUpdated, k, db.notes[k]));
    } else if note.Given? {
      var created := Note(userId, techniqueId, note.value, now, now);
      var k := db.InsertNote(created);
      r := Ok(NoteReply(NoteCreated, k, created));
    } else {
      r := Err(NoteServerError);
    }
  }

  /** `deleteNote`: removes the user's note on the technique, and nothing else. */
  method DeleteNote(db: Store, userId: UserId, techniqueId: TechniqueId) returns (r: Result<string>)
    requires db.Valid()
    modifies db`notes
    ensures db.Valid()
    ensures !old(db.HasNote(userId, techniqueId)) ==> r == Err(NoteNotFound) && db.notes == old(db.notes)
    ensures old(db.HasNote(userId, techniqueId)) ==>
              && r == Ok(NoteDeleted)
              && !db.HasNote(userId, techniqueId)
              && |db.notes| == |old(db.notes)| - 1
              && (forall k :: k in db.notes ==> k in old(db.notes) && db.notes[k] == old(db.notes[k]))
  {
    if !db.HasNote(userId, techniqueId) {
      r := Err(NoteNotFound);
      return;
    }
    var k :| k in db.notes && db.notes[k].userId == userId && db.notes[k].techniqueId == techniqueId;
    OnlyNote(db.notes, db.users.Keys, db.techniques.Keys, db.favorites, db.progress, k);
    db.RemoveNote(k);
    r := Ok(NoteDeleted);
  }

  /** Removing the one note of a pair leaves the pair without a note. */
  lemma OnlyNote(notes: map<NoteId, Note>, userIds: set<UserId>, techniqueIds: set<TechniqueId>,
                 favorites: set<(UserId, TechniqueId)>, progress: map<(UserId, TechniqueId), Progress>, k: NoteId)
    requires EngagementOk(favorites, progress, notes, userIds, techniqueIds) && k in notes
    ensures forall j :: j in notes - {k} ==> !(notes[j].userId == notes[k].userId && notes[j].techniqueId == notes[k].techniqueId)
    ensures |notes - {k}| == |notes| - 1
  {
  }
}

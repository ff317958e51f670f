/** server/controllers/admin.controller.js: the back office. Every route
    runs after `verifyToken` and `isAdmin`. Listings are functions of a
    table read as a sequence of rows; the other handlers change the store. */
module AdminController {

  import opened Common
  import opened Models
  import opened Strings
  import opened Ordering
  import opened Db
  import opened TechniqueController
  import opened UserController

  const CategoryExists := Error(400, "Category already exists")
  const CategoryNotFound := Error(404, "Category not found")
  const CategoryNameExists := Error(400, "Category name already exists")
  const CreateTechniqueFailed := Error(500, "Server error creating technique")
  const UpdateTechniqueFailed := Error(500, "Server error updating technique")

  const UserUpdated := "User updated successfully"
  const MembershipUpdated := "Membership updated successfully"
  const CategoryCreated := "Category created successfully"
  const CategoryUpdated := "Category updated successfully"
  const CategoryDeleted := "Category deleted successfully"
  const TechniqueCreated := "Technique created successfully"
  const TechniqueUpdated := "Technique updated successfully"
  const TechniqueDeleted := "Technique deleted successfully"

  /** How many rows each dashboard list shows. */
  const DashboardListSize: nat := 5

  // ---------------------------------------------------------------- dashboard

  /** The memberships that are active and not yet ended. */
  function LiveRows(memberships: map<MembershipId, Membership>, now: int): (live: set<MembershipId>)
    ensures forall k :: k in live <==> k in memberships && IsLive(memberships[k], now)
  {
    set k | k in memberships && IsLive(memberships[k], now)
  }

  /** `Membership.count` of the live memberships. */
  function ActiveMembers(memberships: map<MembershipId, Membership>, now: int): nat
  {
    |LiveRows(memberships, now)|
  }

  /** Distinct memberships have distinct owners, so a set of memberships
      has as many owners as members. */
  lemma {:induction false} OwnersCount(memberships: map<MembershipId, Membership>, live: set<MembershipId>)
    requires live <= memberships.Keys
    requires forall a, b :: a in memberships && b in memberships && memberships[a].userId == memberships[b].userId ==> a == b
    ensures |set k | k in live :: memberships[k].userId| == |live|
    decreases |live|
  {
    if live != {} {
      var a :| a in live;
      var rest := live - {a};
      OwnersCount(memberships, rest);
      var owners := set k | k in rest :: memberships[k].userId;
      assert (set k | k in live :: memberships[k].userId) == owners + {memberships[a].userId};
      assert memberships[a].userId !in owners;
    }
  }

  /** Since no user has two memberships, counting live memberships counts
      the users who may watch the library. */
  lemma ActiveMembersAreUsers(memberships: map<MembershipId, Membership>, userIds: set<UserId>, now: int)
    requires MembershipsOk(memberships, userIds)
    ensures ActiveMembers(memberships, now) == |set u | u in userIds && LiveMembership(memberships, u, now)|
  {
    var live := LiveRows(memberships, now);
    OwnersCount(memberships, live);
    var members := set u | u in userIds && LiveMembership(memberships, u, now);
    forall u | u in members
      ensures u in (set k | k in live :: memberships[k].userId)
    {
      var k :| k in memberships && memberships[k].userId == u && IsLive(memberships[k], now);
      assert k in live;
    }
    forall k | k in live
      ensures memberships[k].userId in members
    {
      assert LiveMembership(memberships, memberships[k].userId, now);
    }
    assert (set k | k in live :: memberships[k].userId) == members;
  }

  lemma {:induction false} SubsetSize<T>(a: set<T>, b: set<T>)
    requires a <= b
    ensures |a| <= |b|
    decreases |b|
  {
    if a != {} {
      var x :| x in a;
      SubsetSize(a - {x}, b - {x});
    }
  }

  datatype Stats = Stats(totalUsers: nat, activeMembers: nat, totalTechniques: nat, totalCategories: nat)

  /** The `stats` of `getDashboardStats`. */
  method GetDashboardStats(db: Store, now: int) returns (s: Stats)
    requires db.Valid()
    ensures s.totalUsers == |db.users| && s.totalTechniques == |db.techniques| && s.totalCategories == |db.categories|
    ensures s.activeMembers == |LiveRows(db.memberships, now)|
    ensures s.activeMembers == |set u | u in db.users && db.HasLiveMembership(u, now)|
    ensures s.activeMembers <= s.totalUsers
  {
    ActiveMembersAreUsers(db.memberships, db.users.Keys, now);
    var members := set u | u in db.users && db.HasLiveMembership(u, now);
    assert members == set u | u in db.users.Keys && LiveMembership(db.memberships, u, now);
    SubsetSize(members, db.users.Keys);
    s := Stats(|db.users|, ActiveMembers(db.memberships, now), |db.techniques|, |db.categories|);
  }

  /** A user row with its key. */
  datatype UserRow = UserRow(id: UserId, user: User)

  /** A user as the admin routes show it: every column but the password. */
  datatype Account = Account(
    id: UserId, username: string, email: string, firstName: Option<string>, lastName: Option<string>,
    profilePicture: Option<string>, role: string, createdAt: int)

  function AccountOf(id: UserId, u: User): (a: Account)
    ensures a.id == id && a.username == u.username && a.email == u.email && a.role == u.role
    ensures a.firstName == u.firstName && a.lastName == u.lastName && a.createdAt == u.createdAt
  {
    Account(id, u.username, u.email, u.firstName, u.lastName, u.profilePicture, u.role, u.createdAt)
  }

  function Accounts(rows: seq<UserRow>): (r: seq<Account>)
    ensures |r| == |rows|
    ensures forall i :: 0 <= i < |r| ==> r[i] == AccountOf(rows[i].id, rows[i].user)
  {
    seq(|rows|, i requires 0 <= i < |rows| => AccountOf(rows[i].id, rows[i].user))
  }

  predicate Newest(a: Account, b: Account)
  {
    b.createdAt <= a.createdAt
  }

  function Everyone(): Account -> bool
  {
    (a: Account) => true
  }

  /** `recentUsers`: the five newest users, without passwords. */
  function RecentUsers(rows: seq<UserRow>): (r: seq<Account>)
    ensures |r| == Min(DashboardListSize, |rows|)
    ensures forall a :: a in r ==> a in Accounts(rows)
    ensures SortedBy(r, Newest)
    ensures forall a, i :: a in Accounts(rows) && a !in r && 0 <= i < |r| ==> a.createdAt <= r[i].createdAt
    ensures TotalPreorder(Newest) && r == Page(SortBy(Accounts(rows), Newest), 0, DashboardListSize)
  {
    assert TotalPreorder(Newest);
    FilterKeepsAll(Accounts(rows), Everyone());
    FirstPageIsTop(Accounts(rows), Everyone(), Newest, DashboardListSize);
    Select(Accounts(rows), Everyone(), Newest, 0, DashboardListSize)
  }

  predicate MostViewed(a: TechniqueRow, b: TechniqueRow)
  {
    b.technique.viewCount <= a.technique.viewCount
  }

  function AnyTechnique(): TechniqueRow -> bool
  {
    (row: TechniqueRow) => true
  }

  /** `popularTechniques`: the five most viewed techniques, published or not. */
  function PopularTechniques(rows: seq<TechniqueRow>): (r: seq<TechniqueRow>)
    ensures |r| == Min(DashboardListSize, |rows|)
    ensures forall t :: t in r ==> t in rows
    ensures SortedBy(r, MostViewed)
    ensures forall t, i :: t in rows && t !in r && 0 <= i < |r| ==> t.technique.viewCount <= r[i].technique.viewCount
    ensures TotalPreorder(MostViewed) && r == Page(SortBy(rows, MostViewed), 0, DashboardListSize)
  {
    assert TotalPreorder(MostViewed);
    FilterKeepsAll(rows, AnyTechnique());
    FirstPageIsTop(rows, AnyTechnique(), MostViewed, DashboardListSize);
    Select(rows, AnyTechnique(), MostViewed, 0, DashboardListSize)
  }

  // -------------------------------------------------------------------- users

  /** The query string of `getUsers`. */
  datatype UserQuery = UserQuery(
    search: Option<string>, role: Option<string>, sort: Option<string>, limit: Option<nat>, offset: Option<nat>)

  /** `LIKE '%term%'` on username, email, first or last name; a NULL name never matches. */
  predicate UserSearchHit(term: string, a: Account)
  {
    || Contains(a.username, term) || Contains(a.email, term)
    || (a.firstName.Some? && Contains(a.firstName.value, term))
    || (a.lastName.Some? && Contains(a.lastName.value, term))
  }

  /** The `where` of `getUsers`: the search when one is given, and the role, compared
      regardless of the case of ASCII letters as the collation does. */
  predicate MatchesUser(q: UserQuery, a: Account)
  {
    && (Present(q.search) ==> UserSearchHit(q.search.value, a))
    && (Present(q.role) ==> SameIgnoringCase(a.role, q.role.value))
  }

  function UserFilter(q: UserQuery): Account -> bool
  {
    (a: Account) => MatchesUser(q, a)
  }

  /** The `switch (sort)` of `getUsers`: an unknown or missing word means newest first. */
  datatype UserOrder = OldestFirst | ByUsername | NewestFirst

  function UserOrderOf(sort: Option<string>): (o: UserOrder)
    ensures o == OldestFirst <==> sort == Some("oldest")
    ensures o == ByUsername <==> sort == Some("username")
  {
    if sort == Some("oldest") then OldestFirst
    else if sort == Some("username") then ByUsername
    else NewestFirst
  }

  function AccountOrder(o: UserOrder): (Account, Account) -> bool
  {
    (a: Account, b: Account) =>
      match o
      case OldestFirst => a.createdAt <= b.createdAt
      case ByUsername => LexLe(a.username, b.username)
      case NewestFirst => b.createdAt <= a.createdAt
  }

  lemma AccountOrderIsPreorder(o: UserOrder)
    ensures TotalPreorder(AccountOrder(o))
  {
    forall a: Account, b: Account
      ensures AccountOrder(o)(a, b) || AccountOrder(o)(b, a)
    {
      LexLeTotal(a.username, b.username);
    }
    forall a: Account, b: Account, c: Account | AccountOrder(o)(a, b) && AccountOrder(o)(b, c)
      ensures AccountOrder(o)(a, c)
    {
      if o == ByUsername {
        LexLeTransitive(a.username, b.username, c.username);
      }
    }
  }

  /** `getUsers`: the count of matching users, and the requested page of
      them without passwords, in the requested order. */
  function ListUsers(rows: seq<UserRow>, q: UserQuery): (r: Counted<Account>)
    ensures r.count == |Filter(Accounts(rows), UserFilter(q))|
    ensures |r.rows| == PageSize(r.count, Or(q.offset, 0), Or(q.limit, DefaultLimit))
    ensures forall i :: 0 <= i < |r.rows| ==> r.rows[i] in Accounts(rows) && MatchesUser(q, r.rows[i])
    ensures SortedBy(r.rows, AccountOrder(UserOrderOf(q.sort)))
    ensures TotalPreorder(AccountOrder(UserOrderOf(q.sort))) &&
            r.rows == Page(SortBy(Filter(Accounts(rows), UserFilter(q)), AccountOrder(UserOrderOf(q.sort))),
                           Or(q.offset, 0), Or(q.limit, DefaultLimit))
  {
    AccountOrderIsPreorder(UserOrderOf(q.sort));
    var page := Select(Accounts(rows), UserFilter(q), AccountOrder(UserOrderOf(q.sort)), Or(q.offset, 0), Or(q.limit, DefaultLimit));
    assert forall i :: 0 <= i < |page| ==> page[i] in page;
    Counted(|Filter(Accounts(rows), UserFilter(q))|, page)
  }

  /** The row `updateUser` writes: the profile merge, and the role replaced
      when a non-empty one is given. */
  function MergedUser(u: User, username: Field<string>, email: Field<string>, firstName: Field<string>,
                      lastName: Field<string>, role: Field<string>): (v: User)
    ensures v.passwordHash == u.passwordHash && v.profilePicture == u.profilePicture && v.createdAt == u.createdAt
    ensures v.username == (if TruthyStr(username) then username.value else u.username)
    ensures v.email == (if TruthyStr(email) then email.value else u.email)
    ensures v.firstName == (if TruthyStr(firstName) then Some(firstName.value) else u.firstName)
    ensures v.lastName == (if TruthyStr(lastName) then Some(lastName.value) else u.lastName)
    ensures v.role == (if TruthyStr(role) then role.value else u.role)
  {
    MergedProfile(u, firstName, lastName, email, username).(role := OrStr(role, u.role))
  }

  datatype UserReply = UserReply(message: string, user: Account)

  /** What `updateUser` decides from the user table: the error it answers
      with, or the row it writes. The same checks as `updateProfile`, and a
      row that passes them keeps usernames and emails unique. */
  function UserUpdate(users: map<UserId, User>, id: UserId, username: Field<string>, email: Field<string>,
                      firstName: Field<string>, lastName: Field<string>, role: Field<string>): (r: Result<User>)
    ensures id !in users ==> r == Err(UserNotFound)
    ensures id in users ==> (r.Err? <==> IdentityClash(users, id, username, email).Some?)
    ensures id in users && r.Err? ==> Some(r.error) == IdentityClash(users, id, username, email)
    ensures r.Ok? ==> id in users && r.value == MergedUser(users[id], username, email, firstName, lastName, role)
  {
    if id !in users then Err(UserNotFound)
    else
      match IdentityClash(users, id, username, email)
      case Some(e) => Err(e)
      case None => Ok(MergedUser(users[id], username, email, firstName, lastName, role))
  }

  /** A row `UserUpdate` lets through keeps usernames and emails unique. */
  lemma UserUpdateKeepsIdentitiesUnique(users: map<UserId, User>, id: UserId, username: Field<string>, email: Field<string>,
                                        firstName: Field<string>, lastName: Field<string>, role: Field<string>)
    requires UsersOk(users)
    requires UserUpdate(users, id, username, email, firstName, lastName, role).Ok?
    ensures UsersOk(users[id := UserUpdate(users, id, username, email, firstName, lastName, role).value])
  {
    var v := MergedUser(users[id], username, email, firstName, lastName, role);
    assert v.username == OrStr(username, users[id].username) && v.email == OrStr(email, users[id].email);
    MergedIdentityStaysUnique(users, id, v, username, email);
  }

  /** `updateUser`: answers with `UserUpdate`'s error, or writes its row
      and answers with the row without its password. */
  method UpdateUser(db: Store, id: UserId, username: Field<string>, email: Field<string>,
                    firstName: Field<string>, lastName: Field<string>, role: Field<string>)
      returns (r: Result<UserReply>)
    requires db.Valid()
    modifies db`users
    ensures db.Valid()
    ensures match UserUpdate(old(db.users), id, username, email, firstName, lastName, role)
            case Err(e) => r == Err(e) && db.users == old(db.users)
            case Ok(v) => r == Ok(UserReply(UserUpdated, AccountOf(id, v))) && db.users == old(db.users)[id := v]
  {
    match UserUpdate(db.users, id, username, email, firstName, lastName, role)
    case Err(e) =>
      r := Err(e);
    case Ok(v) =>
      UserUpdateKeepsIdentitiesUnique(db.users, id, username, email, firstName, lastName, role);
      db.SetUser(id, v);
      r := Ok(UserReply(UserUpdated, AccountOf(id, v)));
  }

  // -------------------------------------------------------------- memberships

  /** The `defaults` of the `findOrCreate`: active, from now, for a month,
      monthly, unless given. Dates in the body are non-empty strings, so a
      given one is truthy. */
  function NewMembership(userId: UserId, status: Field<MembershipStatus>, startDate: Field<int>, endDate: Field<int>,
                         membershipType: Field<MembershipType>, now: int, monthLater: int): (m: Membership)
    ensures m.userId == userId
    ensures m.status == (if status.Given? then status.value else Active)
    ensures m.startDate == (if startDate.Given? then startDate.value else now)
    ensures m.endDate == (if endDate.Given? then endDate.value else monthLater)
    ensures m.membershipType == (if membershipType.Given? then membershipType.value else Monthly)
  {
    Membership(userId, OrEnum(status, Active), OrEnum(startDate, now), OrEnum(endDate, monthLater), OrEnum(membershipType, Monthly))
  }

  /** A membership created without a status or an end date lets the user in
      for the month ahead. */
  lemma DefaultMembershipIsLive(userId: UserId, startDate: Field<int>, membershipType: Field<MembershipType>,
                                now: int, monthLater: int, t: int)
    requires now <= t <= monthLater
    ensures IsLive(NewMembership(userId, Absent, startDate, Absent, membershipType, now, monthLater), t)
  {
  }

  /** The `update` of an existing membership: each given field overwrites. */
  function MergedMembership(m: Membership, status: Field<MembershipStatus>, startDate: Field<int>, endDate: Field<int>,
                            membershipType: Field<MembershipType>): (v: Membership)
    ensures v.userId == m.userId
    ensures v.status == (if status.Given? then status.value else m.status)
    ensures v.startDate == (if startDate.Given? then startDate.value else m.startDate)
    ensures v.endDate == (if endDate.Given? then endDate.value else m.endDate)
    ensures v.membershipType == (if membershipType.Given? then membershipType.value else m.membershipType)
  {
    m.(status := OrEnum(status, m.status), startDate := OrEnum(startDate, m.startDate),
       endDate := OrEnum(endDate, m.endDate), membershipType := OrEnum(membershipType, m.membershipType))
  }

  /** An update that names no field leaves the membership as it is. */
  lemma EmptyMembershipUpdate(m: Membership)
    ensures MergedMembership(m, Absent, Absent, Absent, Absent) == m
  {
  }

  datatype MembershipReply = MembershipReply(message: string, membershipId: MembershipId, membership: Membership)

  /** `updateMembership`: the user's one membership is created or updated,
      and the user still has exactly one afterwards. `monthLater` stands for
      the date one calendar month after `now`. */
  method UpdateMembership(db: Store, userId: UserId, status: Field<MembershipStatus>, startDate: Field<int>,
                          endDate: Field<int>, membershipType: Field<MembershipType>, now: int, monthLater: int)
      returns (r: Result<MembershipReply>)
    requires db.Valid()
    modifies db`memberships, db`nextMembershipId
    ensures db.Valid()
    ensures userId !in db.users ==> r == Err(UserNotFound) && db.memberships == old(db.memberships)
    ensures userId in db.users ==>
              && r.Ok? && r.value.message == MembershipUpdated
              && r.value.membershipId in db.memberships && db.memberships[r.value.membershipId] == r.value.membership
              && (forall k :: k in db.memberships && db.memberships[k].userId == userId ==> k == r.value.membershipId)
    ensures userId in db.users && !old(db.HasMembershipRow(userId)) ==>
              && r.Ok? && r.value.membershipId !in old(db.memberships)
              && db.memberships == old(db.memberships)[r.value.membershipId :=
                   NewMembership(userId, status, startDate, endDate, membershipType, now, monthLater)]
    ensures userId in db.users && old(db.HasMembershipRow(userId)) ==>
              && r.Ok? && r.value.membershipId in old(db.memberships)
              && old(db.memberships[r.value.membershipId]).userId == userId
              && db.memberships == old(db.memberships)[r.value.membershipId :=
                   MergedMembership(old(db.memberships[r.value.membershipId]), status, startDate, endDate, membershipType)]
  {
    if userId !in db.users {
      r := Err(UserNotFound);
      return;
    }
    var reply;
    if db.HasMembershipRow(userId) {
      var k :| k in db.memberships && db.memberships[k].userId == userId;
      reply := RewriteMembership(db, k, status, startDate, endDate, membershipType);
    } else {
      reply := CreateMembership(db, userId, status, startDate, endDate, membershipType, now, monthLater);
    }
    r := Ok(reply);
  }

  /** The `update` branch: the user's row is rewritten with the given fields. */
  method RewriteMembership(db: Store, k: MembershipId, status: Field<MembershipStatus>, startDate: Field<int>,
                           endDate: Field<int>, membershipType: Field<MembershipType>)
      returns (r: MembershipReply)
    requires db.Valid() && k in db.memberships
    modifies db`memberships
    ensures db.Valid()
    ensures db.memberships == old(db.memberships)[k := MergedMembership(old(db.memberships[k]), status, startDate, endDate, membershipType)]
    ensures r == MembershipReply(MembershipUpdated, k, db.memberships[k])
    ensures forall j :: j in db.memberships && db.memberships[j].userId == r.membership.userId ==> j == k
  {
    var m := MergedMembership(db.memberships[k], status, startDate, endDate, membershipType);
    db.SetMembership(k, m);
    r := MembershipReply(MembershipUpdated, k, m);
    OneMembershipPerUser(db.memberships, db.users.Keys, k);
  }

  /** The `create` branch: a new row under a fresh id. */
  method CreateMembership(db: Store, userId: UserId, status: Field<MembershipStatus>, startDate: Field<int>,
                          endDate: Field<int>, membershipType: Field<MembershipType>, now: int, monthLater: int)
      returns (r: MembershipReply)
    requires db.Valid() && userId in db.users && !db.HasMembershipRow(userId)
    modifies db`memberships, db`nextMembershipId
    ensures db.Valid()
    ensures r.membershipId !in old(db.memberships)
    ensures db.memberships == old(db.memberships)[r.membershipId := NewMembership(userId, status, startDate, endDate, membershipType, now, monthLater)]
    ensures r == MembershipReply(MembershipUpdated, r.membershipId, db.memberships[r.membershipId])
    ensures forall j :: j in db.memberships && db.memberships[j].userId == userId ==> j == r.membershipId
  {
    var m := NewMembership(userId, status, startDate, endDate, membershipType, now, monthLater);
    var k := db.InsertMembership(m);
    r := MembershipReply(MembershipUpdated, k, m);
    OneMembershipPerUser(db.memberships, db.users.Keys, k);
  }

  /** No user owns two membership rows. */
  lemma OneMembershipPerUser(memberships: map<MembershipId, Membership>, userIds: set<UserId>, k: MembershipId)
    requires MembershipsOk(memberships, userIds) && k in memberships
    ensures forall j :: j in memberships && memberships[j].userId == memberships[k].userId ==> j == k
  {
  }

  // --------------------------------------------------------------- categories

  /** A category row with its key. */
  datatype CategoryRow = CategoryRow(id: CategoryId, category: Category)

  predicate ByName(a: CategoryRow, b: CategoryRow)
  {
    LexLe(a.category.name, b.category.name)
  }

  lemma ByNameIsPreorder()
    ensures TotalPreorder(ByName)
  {
    forall a: CategoryRow, b: CategoryRow
      ensures ByName(a, b) || ByName(b, a)
    {
      LexLeTotal(a.category.name, b.category.name);
    }
    forall a: CategoryRow, b: CategoryRow, c: CategoryRow | ByName(a, b) && ByName(b, c)
      ensures ByName(a, c)
    {
      LexLeTransitive(a.category.name, b.category.name, c.category.name);
    }
  }

  /** `getCategories`: every category, by name. */
  function ListCategories(rows: seq<CategoryRow>): (r: seq<CategoryRow>)
    ensures multiset(r) == multiset(rows)
    ensures SortedBy(r, ByName)
  {
    ByNameIsPreorder();
    SortBy(rows, ByName)
  }

  datatype CategoryReply = CategoryReply(message: string, id: CategoryId, category: Category)

  /** `createCategory`: refused when the name is taken, otherwise a new row. */
  method CreateCategory(db: Store, name: string, description: Field<string>) returns (r: Result<CategoryReply>)
    requires db.Valid()
    modifies db`categories, db`nextCategoryId
    ensures db.Valid()
    ensures r.Err? <==> old(db.CategoryNameTaken(name))
    ensures r.Err? ==> r.error == CategoryExists && db.categories == old(db.categories)
    ensures r.Ok? ==>
              && r.value.id !in old(db.categories)
              && r.value == CategoryReply(CategoryCreated, r.value.id, Category(name, ToColumn(description)))
              && db.categories == old(db.categories)[r.value.id := r.value.category]
  {
    if db.CategoryNameTaken(name) {
      r := Err(CategoryExists);
      return;
    }
    var id := db.nextCategoryId;
    var c := Category(name, ToColumn(description));
    db.categories := db.categories[id := c];
    db.nextCategoryId := db.nextCategoryId + 1;
    r := Ok(CategoryReply(CategoryCreated, id, c));
  }

  /** Renaming is refused when the new, non-empty name differs from the
      current one and another category has it. */
  predicate RenameClash(categories: map<CategoryId, Category>, id: CategoryId, name: Field<string>)
    requires id in categories
  {
    TruthyStr(name) && name.value != categories[id].name &&
    exists k :: k in categories && categories[k].name == name.value
  }

  /** `updateCategory`: name and description are each replaced when given non-empty. */
  method UpdateCategory(db: Store, id: CategoryId, name: Field<string>, description: Field<string>)
      returns (r: Result<CategoryReply>)
    requires db.Valid()
    modifies db`categories
    ensures db.Valid()
    ensures id !in old(db.categories) ==> r == Err(CategoryNotFound)
    ensures id in old(db.categories) ==> (r.Err? <==> RenameClash(old(db.categories), id, name))
    ensures id in old(db.categories) && r.Err? ==> r.error == CategoryNameExists
    ensures r.Err? ==> db.categories == old(db.categories)
    ensures r.Ok? ==>
              var c := old(db.categories[id]);
              && r.value == CategoryReply(CategoryUpdated, id, Category(OrStr(name, c.name), OrOptStr(description, c.description)))
              && db.categories == old(db.categories)[id := r.value.category]
  {
    if id !in db.categories {
      r := Err(CategoryNotFound);
      return;
    }
    if RenameClash(db.categories, id, name) {
      r := Err(CategoryNameExists);
      return;
    }
    var c := db.categories[id];
    var v := Category(OrStr(name, c.name), OrOptStr(description, c.description));
    db.categories := db.categories[id := v];
    r := Ok(CategoryReply(CategoryUpdated, id, v));
  }

  /** `deleteCategory`: refused, with the number of techniques, while any technique references it. */
  method DeleteCategory(db: Store, id: CategoryId) returns (r: Result<string>)
    requires db.Valid()
    modifies db`categories
    ensures db.Valid()
    ensures id !in old(db.categories) ==> r == Err(CategoryNotFound)
    ensures id in old(db.categories) && db.TechniquesIn(id) != {} ==> r == Err(CategoryInUse(|db.TechniquesIn(id)|))
    ensures r.Err? ==> db.categories == old(db.categories)
    ensures r.Ok? <==> id in old(db.categories) && db.TechniquesIn(id) == {}
    ensures r.Ok? ==> r.value == CategoryDeleted && db.categories == old(db.categories) - {id}
  {
    if id !in db.categories {
      r := Err(CategoryNotFound);
      return;
    }
    var inUse := db.TechniquesIn(id);
    if |inUse| > 0 {
      r := Err(CategoryInUse(|inUse|));
      return;
    }
    assert forall k :: k in db.techniques ==> db.techniques[k].categoryId != Some(id) by {
      forall k | k in db.techniques
        ensures db.techniques[k].categoryId != Some(id)
      {
        assert k !in inUse;
      }
    }
    db.categories := db.categories - {id};
    r := Ok(CategoryDeleted);
  }

  // --------------------------------------------------------------- techniques

  /** The query string of `GET /api/admin/techniques`. */
  datatype AdminQuery = AdminQuery(
    search: Option<string>, category: Option<CategoryId>, belt: Option<BeltLevelId>, published: Option<string>,
    sort: Option<string>, limit: Option<nat>, offset: Option<nat>)

  /** The `where` of `getTechniques`: published and unpublished rows alike,
      unless `published` is sent, in which case only the word "true"
      selects published rows and any other value selects unpublished ones. */
  predicate MatchesAdmin(q: AdminQuery, t: Technique)
  {
    && (Present(q.search) ==> SearchHit(q.search.value, t))
    && (q.category.Some? ==> t.categoryId == q.category)
    && (q.belt.Some? ==> t.beltLevelId == q.belt)
    && (q.published.Some? ==> (t.isPublished <==> q.published.value == "true"))
  }

  function AdminFilter(q: AdminQuery): TechniqueRow -> bool
  {
    (row: TechniqueRow) => MatchesAdmin(q, row.technique)
  }

  /** The `switch (sort)` of `getTechniques`: an unknown or missing word means newest first. */
  function AdminOrder(sort: Option<string>): (o: Order)
    ensures o.key == Title <==> sort == Some("title")
    ensures o.key == ViewCount <==> sort == Some("popular")
    ensures o.direction == Asc <==> sort == Some("oldest") || sort == Some("title")
  {
    if sort == Some("oldest") then OrderBy(CreatedAt, Asc)
    else if sort == Some("title") then OrderBy(Title, Asc)
    else if sort == Some("popular") then OrderBy(ViewCount, Desc)
    else OrderBy(CreatedAt, Desc)
  }

  /** `getTechniques`: the count of matching techniques and the requested page of them. */
  function ListAdminTechniques(rows: seq<TechniqueRow>, q: AdminQuery): (r: Counted<TechniqueRow>)
    ensures r.count == |Filter(rows, AdminFilter(q))|
    ensures |r.rows| == PageSize(r.count, Or(q.offset, 0), Or(q.limit, DefaultLimit))
    ensures forall i :: 0 <= i < |r.rows| ==> r.rows[i] in rows && MatchesAdmin(q, r.rows[i].technique)
    ensures forall i, j :: 0 <= i < j < |r.rows| ==> Before(AdminOrder(q.sort), r.rows[i].technique, r.rows[j].technique)
    ensures TotalPreorder(RowOrder(AdminOrder(q.sort))) &&
            r.rows == Page(SortBy(Filter(rows, AdminFilter(q)), RowOrder(AdminOrder(q.sort))),
                           Or(q.offset, 0), Or(q.limit, DefaultLimit))
  {
    RowOrderIsPreorder(AdminOrder(q.sort));
    var page := Select(rows, AdminFilter(q), RowOrder(AdminOrder(q.sort)), Or(q.offset, 0), Or(q.limit, DefaultLimit));
    assert forall i :: 0 <= i < |page| ==> page[i] in page;
    Counted(|Filter(rows, AdminFilter(q))|, page)
  }

  /** The body of `createTechnique` and `updateTechnique`. The two flags
      are JSON booleans when sent; `tags` is an array of names when sent. */
  datatype TechniqueInput = TechniqueInput(
    title: Field<string>,
    description: Field<string>,
    videoUrl: Field<string>,
    thumbnailUrl: Field<string>,
    categoryId: Field<CategoryId>,
    beltLevelId: Field<BeltLevelId>,
    position: Field<string>,
    instructor: Field<string>,
    difficultyLevel: Field<Difficulty>,
    isFeatured: Option<bool>,
    isPublished: Option<bool>,
    tags: Option<seq<string>>)

  /** `Technique.create` succeeds: the three required columns are given,
      and a given category or belt level exists. */
  predicate Creatable(categories: map<CategoryId, Category>, beltLevels: set<BeltLevelId>, input: TechniqueInput)
  {
    && input.title.Given? && input.videoUrl.Given? && input.difficultyLevel.Given?
    && (input.categoryId.Given? ==> input.categoryId.value in categories)
    && (input.beltLevelId.Given? ==> input.beltLevelId.value in beltLevels)
  }

  /** The row `createTechnique` inserts. */
  function NewTechnique(input: TechniqueInput, now: int): (t: Technique)
    requires input.title.Given? && input.videoUrl.Given? && input.difficultyLevel.Given?
    ensures t.title == input.title.value && t.videoUrl == input.videoUrl.value && t.difficulty == input.difficultyLevel.value
    ensures t.description == ToColumn(input.description) && t.thumbnailUrl == ToColumn(input.thumbnailUrl)
    ensures t.categoryId == ToColumn(input.categoryId) && t.beltLevelId == ToColumn(input.beltLevelId)
    ensures t.position == ToColumn(input.position)
    ensures t.instructor == (if TruthyStr(input.instructor) then input.instructor.value else DefaultInstructor)
    ensures t.isFeatured <==> input.isFeatured == Some(true)
    ensures t.isPublished <==> input.isPublished != Some(false)
    ensures t.viewCount == 0 && t.createdAt == now && t.updatedAt == now
  {
    Technique(input.title.value, ToColumn(input.description), input.videoUrl.value, ToColumn(input.thumbnailUrl),
              ToColumn(input.categoryId), ToColumn(input.beltLevelId), ToColumn(input.position),
              OrStr(input.instructor, DefaultInstructor), input.difficultyLevel.value,
              input.isFeatured == Some(true), input.isPublished != Some(false), DefaultViewCount, now, now)
  }

  /** A technique created with neither flag is published and not featured,
      the column defaults. */
  lemma NewTechniqueDefaults(input: TechniqueInput, now: int)
    requires input.title.Given? && input.videoUrl.Given? && input.difficultyLevel.Given?
    requires input.isFeatured.None? && input.isPublished.None? && input.instructor.Absent?
    ensures var t := NewTechnique(input, now);
            t.isFeatured == DefaultFeatured && t.isPublished == DefaultPublished && t.instructor == DefaultInstructor
  {
  }

  /** The tag names the `for` loop visits: none when `tags` is not sent. */
  function TagNames(tags: Option<seq<string>>): seq<string>
  {
    if tags.Some? then tags.value else []
  }

  /** The names `tagName.trim()` yields for a list of names. */
  function TrimmedNames(names: seq<string>): set<string>
  {
    set i | 0 <= i < |names| :: Trim(names[i])
  }

  /** One more name visited adds its trimmed form. */
  lemma TrimmedNamesStep(names: seq<string>, i: nat)
    requires i < |names|
    ensures TrimmedNames(names[..i + 1]) == TrimmedNames(names[..i]) + {Trim(names[i])}
  {
    assert names[..i + 1] == names[..i] + [names[i]];
    TrimmedNamesAppend(names[..i], names[i]);
  }

  lemma TrimmedNamesAppend(s: seq<string>, x: string)
    ensures TrimmedNames(s + [x]) == TrimmedNames(s) + {Trim(x)}
  {
    var t := s + [x];
    forall n | n in TrimmedNames(t)
      ensures n in TrimmedNames(s) + {Trim(x)}
    {
      var j :| 0 <= j < |t| && n == Trim(t[j]);
      if j < |s| {
        assert t[j] == s[j];
      }
    }
    forall n | n in TrimmedNames(s)
      ensures n in TrimmedNames(t)
    {
      var j :| 0 <= j < |s| && n == Trim(s[j]);
      assert t[j] == s[j];
    }
    assert t[|s|] == x;
  }

  /** One pass of the `for` loop: the tag named `name` is found or created
      and linked to the technique. When the technique's tags were `base`
      plus the tags the names in `seen` pick out, they become `base` plus
      the tags `seen` and `name` pick out. */
  method LinkTag(db: Store, id: TechniqueId, name: string, ghost base: set<TagId>, ghost seen: set<string>)
    requires db.Valid() && id in db.techniques
    requires db.TagsOf(id) == base + db.TagIdsNamed(seen) && seen <= db.tags.Values
    modifies db`tags, db`nextTagId, db`techniqueTags
    ensures db.Valid()
    ensures db.TagsOf(id) == base + db.TagIdsNamed(seen + {name}) && seen + {name} <= db.tags.Values
    ensures forall t :: t != id ==> db.TagsOf(t) == old(db.TagsOf(t))
    ensures forall k :: k in old(db.tags) ==> k in db.tags && db.tags[k] == old(db.tags[k])
    ensures TagsGrownBy(old(db.tags), db.tags, {name})
  {
    ghost var before := db.tags;
    ghost var named := IdsNamed(before, seen);
    var tagId := db.FindOrCreateTag(name);
    IdsNamedStep(before, db.tags, seen, name, tagId);
    db.AddTag(id, tagId);
    assert db.TagsOf(id) == (base + named) + {tagId};
    assert (base + named) + {tagId} == base + (named + {tagId});
  }

  /** The `for` loop over the tag names: each trimmed name is found or
      created as a tag and linked to the technique. */
  method LinkTags(db: Store, id: TechniqueId, names: seq<string>)
    requires db.Valid() && id in db.techniques
    modifies db`tags, db`nextTagId, db`techniqueTags
    ensures db.Valid()
    ensures db.TagsOf(id) == old(db.TagsOf(id)) + db.TagIdsNamed(TrimmedNames(names))
    ensures TrimmedNames(names) <= db.tags.Values
    ensures forall t :: t != id ==> db.TagsOf(t) == old(db.TagsOf(t))
    ensures forall k :: k in old(db.tags) ==> k in db.tags && db.tags[k] == old(db.tags[k])
    ensures TagsGrownBy(old(db.tags), db.tags, TrimmedNames(names))
  {
    ghost var base := db.TagsOf(id);
    assert TrimmedNames(names[..0]) == {};
    var i := 0;
    while i < |names|
      invariant 0 <= i <= |names|
      invariant db.Valid() && id in db.techniques
      invariant db.TagsOf(id) == base + db.TagIdsNamed(TrimmedNames(names[..i]))
      invariant TrimmedNames(names[..i]) <= db.tags.Values
      invariant forall t :: t != id ==> db.TagsOf(t) == old(db.TagsOf(t))
      invariant forall k :: k in old(db.tags) ==> k in db.tags && db.tags[k] == old(db.tags[k])
      invariant TagsGrownBy(old(db.tags), db.tags, TrimmedNames(names[..i]))
    {
      TrimmedNamesStep(names, i);
      ghost var mid := db.tags;
      LinkTag(db, id, Trim(names[i]), base, TrimmedNames(names[..i]));
      TagsGrownTrans(old(db.tags), mid, db.tags, TrimmedNames(names[..i]), {Trim(names[i])});
      i := i + 1;
    }
    assert names[..i] == names;
  }

  /** `setTags([])` followed by the loop: the technique ends up with exactly
      the tags its trimmed names pick out. */
  method ReplaceTags(db: Store, id: TechniqueId, names: seq<string>)
    requires db.Valid() && id in db.techniques
    modifies db`tags, db`nextTagId, db`techniqueTags
    ensures db.Valid()
    ensures db.TagsOf(id) == db.TagIdsNamed(TrimmedNames(names))
    ensures TrimmedNames(names) <= db.tags.Values
    ensures forall t :: t != id ==> db.TagsOf(t) == old(db.TagsOf(t))
    ensures TagsGrownBy(old(db.tags), db.tags, TrimmedNames(names))
  {
    db.ClearTags(id);
    LinkTags(db, id, names);
  }

  /** The technique a create or update replies with, and its tags. */
  datatype TechniqueReply = TechniqueReply(message: string, id: TechniqueId, technique: Technique, tagIds: set<TagId>)

  /** `createTechnique`: the row, then its tags. A body the insert rejects
      ends in the `catch` with nothing written. */
  method CreateTechnique(db: Store, input: TechniqueInput, now: int) returns (r: Result<TechniqueReply>)
    requires db.Valid()
    modifies db`techniques, db`nextTechniqueId, db`tags, db`nextTagId, db`techniqueTags
    ensures db.Valid()
    ensures r.Err? <==> !Creatable(db.categories, db.beltLevels, input)
    ensures r.Err? ==>
              && r.error == CreateTechniqueFailed
              && db.techniques == old(db.techniques) && db.tags == old(db.tags) && db.techniqueTags == old(db.techniqueTags)
    ensures r.Ok? ==>
              && r.value.id !in old(db.techniques)
              && db.techniques == old(db.techniques)[r.value.id := NewTechnique(input, now)]
              && db.TagsOf(r.value.id) == db.TagIdsNamed(TrimmedNames(TagNames(input.tags)))
              && TrimmedNames(TagNames(input.tags)) <= db.tags.Values
              && r.value == TechniqueReply(TechniqueCreated, r.value.id, NewTechnique(input, now), db.TagsOf(r.value.id))
              && (forall t :: t != r.value.id ==> db.TagsOf(t) == old(db.TagsOf(t)))
              && TagsGrownBy(old(db.tags), db.tags, TrimmedNames(TagNames(input.tags)))
  {
    if !Creatable(db.categories, db.beltLevels, input) {
      r := Err(CreateTechniqueFailed);
      return;
    }
    var t := NewTechnique(input, now);
    var id := db.InsertTechnique(t);
    LinkTags(db, id, TagNames(input.tags));
    r := Ok(TechniqueReply(TechniqueCreated, id, t, db.TagsOf(id)));
  }

  /** The row `updateTechnique` writes: `||` for title, video, category,
      belt level, instructor and difficulty, so an empty value or id 0
      keeps the old one; `!== undefined` for the other columns, so `null`
      clears them. The view count and both dates are never touched. */
  function MergedTechnique(t: Technique, input: TechniqueInput): (v: Technique)
    ensures v.categoryId == (if TruthyId(input.categoryId) then Some(input.categoryId.value) else t.categoryId)
    ensures v.viewCount == t.viewCount && v.createdAt == t.createdAt && v.updatedAt == t.updatedAt
  {
    t.(title := OrStr(input.title, t.title),
       description := IfDefined(input.description, t.description),
       videoUrl := OrStr(input.videoUrl, t.videoUrl),
       thumbnailUrl := IfDefined(input.thumbnailUrl, t.thumbnailUrl),
       categoryId := if TruthyId(input.categoryId) then Some(input.categoryId.value) else t.categoryId,
       beltLevelId := if TruthyId(input.beltLevelId) then Some(input.beltLevelId.value) else t.beltLevelId,
       position := IfDefined(input.position, t.position),
       instructor := OrStr(input.instructor, t.instructor),
       difficulty := OrEnum(input.difficultyLevel, t.difficulty),
       isFeatured := if input.isFeatured.Some? then input.isFeatured.value else t.isFeatured,
       isPublished := if input.isPublished.Some? then input.isPublished.value else t.isPublished)
  }

  /** An empty body changes nothing. */
  lemma EmptyTechniqueUpdate(t: Technique)
    ensures MergedTechnique(t, TechniqueInput(Absent, Absent, Absent, Absent, Absent, Absent, Absent, Absent, Absent, None, None, None)) == t
  {
  }

  /** An update that gives every column a value that counts writes the row
      `createTechnique` would have created from the same body, apart from the
      view count and the dates. */
  lemma FullUpdateIsCreate(t: Technique, input: TechniqueInput, now: int)
    requires TruthyStr(input.title) && TruthyStr(input.videoUrl) && TruthyStr(input.instructor)
    requires TruthyId(input.categoryId) && TruthyId(input.beltLevelId) && input.difficultyLevel.Given?
    requires input.description.Given? && input.thumbnailUrl.Given? && input.position.Given?
    requires input.isFeatured.Some? && input.isPublished.Some?
    ensures MergedTechnique(t, input) ==
              NewTechnique(input, now).(viewCount := t.viewCount, createdAt := t.createdAt, updatedAt := t.updatedAt)
  {
  }

  /** The merge rule of `updateTechnique`, column by column. Title, video
      URL, category, belt level, instructor and difficulty use `x || old`, so
      an empty string, a 0 or a null keeps the old value. Description,
      thumbnail, position and the two flags use `x !== undefined ? x : old`,
      so an empty string or a null sent for them is stored. */
  lemma MergedTechniqueFallbacks(t: Technique, input: TechniqueInput)
    ensures var v := MergedTechnique(t, input);
            && v.title == (if input.title.Given? && input.title.value != "" then input.title.value else t.title)
            && v.videoUrl == (if input.videoUrl.Given? && input.videoUrl.value != "" then input.videoUrl.value else t.videoUrl)
            && v.instructor == (if input.instructor.Given? && input.instructor.value != "" then input.instructor.value else t.instructor)
            && v.beltLevelId == (if input.beltLevelId.Given? && input.beltLevelId.value != 0 then Some(input.beltLevelId.value) else t.beltLevelId)
            && v.difficulty == (if input.difficultyLevel.Given? then input.difficultyLevel.value else t.difficulty)
            && v.description == (match input.description case Absent => t.description case Null => None case Given(d) => Some(d))
            && v.thumbnailUrl == (match input.thumbnailUrl case Absent => t.thumbnailUrl case Null => None case Given(u) => Some(u))
            && v.position == (match input.position case Absent => t.position case Null => None case Given(p) => Some(p))
            && v.isFeatured == (if input.isFeatured.Some? then input.isFeatured.value else t.isFeatured)
            && v.isPublished == (if input.isPublished.Some? then input.isPublished.value else t.isPublished)
  {
  }

  /** The two rules side by side: `{title: "", description: ""}` keeps the
      title and stores an empty description. */
  lemma EmptyStringsMergeDifferently(t: Technique)
    ensures var v := MergedTechnique(t, TechniqueInput(Given(""), Given(""), Absent, Absent, Absent, Absent, Absent, Absent, Absent, None, None, None));
            v.title == t.title && v.description == Some("")
  {
  }

  /** Sending the same update twice is the same as sending it once. */
  lemma MergedTechniqueIdempotent(t: Technique, input: TechniqueInput)
    ensures MergedTechnique(MergedTechnique(t, input), input) == MergedTechnique(t, input)
  {
  }

  /** The update succeeds unless a new category or belt-level id names no row. */
  predicate Updatable(categories: map<CategoryId, Category>, beltLevels: set<BeltLevelId>, input: TechniqueInput)
  {
    && (TruthyId(input.categoryId) ==> input.categoryId.value in categories)
    && (TruthyId(input.beltLevelId) ==> input.beltLevelId.value in beltLevels)
  }

  /** `updateTechnique`: the merge, then, when `tags` is sent (even as an
      empty array), the tag set replaced by the one the names give. */
  method UpdateTechnique(db: Store, id: TechniqueId, input: TechniqueInput) returns (r: Result<TechniqueReply>)
    requires db.Valid()
    modifies db`techniques, db`tags, db`nextTagId, db`techniqueTags
    ensures db.Valid()
    ensures id !in old(db.techniques) ==> r == Err(TechniqueNotFound)
    ensures id in old(db.techniques) && !Updatable(db.categories, db.beltLevels, input) ==> r == Err(UpdateTechniqueFailed)
    ensures r.Ok? <==> id in old(db.techniques) && Updatable(db.categories, db.beltLevels, input)
    ensures r.Err? ==> db.techniques == old(db.techniques) && db.tags == old(db.tags) && db.techniqueTags == old(db.techniqueTags)
    ensures r.Ok? ==>
              && db.techniques == old(db.techniques)[id := MergedTechnique(old(db.techniques[id]), input)]
              && (input.tags.Some? ==> db.TagsOf(id) == db.TagIdsNamed(TrimmedNames(input.tags.value)))
              && (input.tags.Some? ==> TagsGrownBy(old(db.tags), db.tags, TrimmedNames(input.tags.value)))
              && (input.tags.None? ==> db.TagsOf(id) == old(db.TagsOf(id)) && db.tags == old(db.tags))
              && r.value == TechniqueReply(TechniqueUpdated, id, db.techniques[id], db.TagsOf(id))
              && (forall t :: t != id ==> db.TagsOf(t) == old(db.TagsOf(t)))
  {
    if id !in db.techniques {
      r := Err(TechniqueNotFound);
      return;
    }
    if !Updatable(db.categories, db.beltLevels, input) {
      r := Err(UpdateTechniqueFailed);
      return;
    }
    var v := MergedTechnique(db.techniques[id], input);
    db.SetTechnique(id, v);
    if input.tags.Some? {
      ReplaceTags(db, id, input.tags.value);
    }
    r := Ok(TechniqueReply(TechniqueUpdated, id, v, db.TagsOf(id)));
  }

  /** `deleteTechnique`: the row and everything that references it. */
  method DeleteTechnique(db: Store, id: TechniqueId) returns (r: Result<string>)
    requires db.Valid()
    modifies db`techniques, db`techniqueTags, db`favorites, db`progress, db`notes
    ensures db.Valid()
    ensures id !in old(db.techniques) ==> r == Err(TechniqueNotFound) && db.techniques == old(db.techniques)
    ensures id !in old(db.techniques) ==>
              && db.techniqueTags == old(db.techniqueTags) && db.favorites == old(db.favorites)
              && db.progress == old(db.progress) && db.notes == old(db.notes)
    ensures id in old(db.techniques) ==>
              && r == Ok(TechniqueDeleted)
              && db.techniques == old(db.techniques) - {id}
              && db.TagsOf(id) == {} && (forall t :: t != id ==> db.TagsOf(t) == old(db.TagsOf(t)))
              && db.favorites == FavoritesWithout(old(db.favorites), id)
              && db.progress == ProgressWithout(old(db.progress), id)
              && db.notes == NotesWithout(old(db.notes), id)
  {
    if id !in db.techniques {
      r := Err(TechniqueNotFound);
      return;
    }
    db.RemoveTechnique(id);
    r := Ok(TechniqueDeleted);
  }
}

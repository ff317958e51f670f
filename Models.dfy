/** The rows of the relational schema (the files under server/models): one datatype per
    table, the enumerations the columns admit, and the column defaults.
    Surrogate keys are not part of a row; the store keys its tables by them. */
module Models {

  import opened Common

  type UserId = nat
  type MembershipId = nat
  type CategoryId = nat
  type BeltLevelId = nat
  type TechniqueId = nat
  type TagId = nat
  type NoteId = nat

  /** The two roles a user row carries. Roles are kept as the strings the
      token and the `isAdmin` comparison see. */
  const AdminRole := "admin"
  const MemberRole := "member"

  datatype User = User(
    username: string,
    email: string,
    passwordHash: string,
    firstName: Option<string>,
    lastName: Option<string>,
    profilePicture: Option<string>,
    role: string,
    createdAt: int)

  /** membership.model.js: status and type enumerations. */
  datatype MembershipStatus = Active | Expired | Cancelled
  datatype MembershipType = Monthly | Quarterly | Annual

  /** membership.model.js: a membership row; both dates are required, and
      nothing orders them. */
  datatype Membership = Membership(
    userId: UserId,
    status: MembershipStatus,
    startDate: int,
    endDate: int,
    membershipType: MembershipType)

  /** The membership rule every check uses: status active and not yet ended. */
  predicate IsLive(m: Membership, now: int)
  {
    m.status == Active && m.endDate >= now
  }

  /** `Membership.findOne({where: {user_id, status: "active", end_date >= now}})`
      finds a row. */
  predicate LiveMembership(ms: map<MembershipId, Membership>, u: UserId, now: int)
  {
    exists k :: k in ms && ms[k].userId == u && IsLive(ms[k], now)
  }

  datatype Category = Category(name: string, description: Option<string>)

  /** technique.model.js: difficulty enumeration and its column spelling. */
  datatype Difficulty = Beginner | Intermediate | Advanced

  function DifficultyName(d: Difficulty): string
  {
    match d
    case Beginner => "beginner"
    case Intermediate => "intermediate"
    case Advanced => "advanced"
  }

  /** technique.model.js: a technique row. `title`, `video_url` and
      `difficulty_level` are required; category and belt level are nullable
      references; `timestamps: false` leaves `updated_at` at its creation value. */
  datatype Technique = Technique(
    title: string,
    description: Option<string>,
    videoUrl: string,
    thumbnailUrl: Option<string>,
    categoryId: Option<CategoryId>,
    beltLevelId: Option<BeltLevelId>,
    position: Option<string>,
    instructor: string,
    difficulty: Difficulty,
    isFeatured: bool,
    isPublished: bool,
    viewCount: nat,
    createdAt: int,
    updatedAt: int)

  /** technique.model.js column defaults. */
  const DefaultInstructor := "Larry Hope"
  const DefaultFeatured := false
  const DefaultPublished := true
  const DefaultViewCount: nat := 0

  /** userProgress.model.js: status enumeration and its column spelling. */
  datatype ProgressStatus = NotStarted | InProgress | Completed

  function ProgressStatusName(s: ProgressStatus): string
  {
    match s
    case NotStarted => "not_started"
    case InProgress => "in_progress"
    case Completed => "completed"
  }

  /** userProgress.model.js: a progress row. The percentage is an integer
      column, default 0, with no range constraint and nullable; `last_viewed`
      is nullable. */
  datatype Progress = Progress(status: ProgressStatus, percentage: Option<int>, lastViewed: Option<int>)

  const DefaultProgressStatus := NotStarted
  const DefaultPercentage := 0

  /** userNote.model.js: a note row; the text is required. */
  datatype Note = Note(userId: UserId, techniqueId: TechniqueId, text: string, createdAt: int, updatedAt: int)
}

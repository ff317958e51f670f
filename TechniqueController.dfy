/** server/controllers/technique.controller.js: the member-facing technique
    catalogue. Listings are functions of the technique table read as a
    sequence of rows; viewing, favoriting and progress change the store.
    `req.userId` is always set on these routes, since `verifyToken` runs
    first. `parseInt` of `limit` and `offset` is taken as already done: an
    absent parameter is `None`. */
module TechniqueController {

  import opened Common
  import opened Models
  import opened Strings
  import opened Ordering
  import opened Db

  /** A technique row together with its primary key. */
  datatype TechniqueRow = TechniqueRow(id: TechniqueId, technique: Technique)

  /** A listed technique with the requesting user's favorite flag. */
  datatype Listed = Listed(row: TechniqueRow, isFavorite: bool)

  const TechniqueNotFound := Error(404, "Technique not found")
  const AccessDenied := Error(403, "Access denied")
  const FavoritesServerError := Error(500, "Server error retrieving favorites")

  /** The `ORDER BY` of a technique listing. */
  datatype SortKey = CreatedAt | Title | ViewCount
  datatype Direction = Asc | Desc
  datatype Order = OrderBy(key: SortKey, direction: Direction)

  /** `a` may come before `b` under `o`. */
  predicate Before(o: Order, a: Technique, b: Technique)
  {
    match o.key
    case CreatedAt => if o.direction == Asc then a.createdAt <= b.createdAt else b.createdAt <= a.createdAt
    case Title => if o.direction == Asc then LexLe(a.title, b.title) else LexLe(b.title, a.title)
    case ViewCount => if o.direction == Asc then a.viewCount <= b.viewCount else b.viewCount <= a.viewCount
  }

  function RowOrder(o: Order): (TechniqueRow, TechniqueRow) -> bool
  {
    (a: TechniqueRow, b: TechniqueRow) => Before(o, a.technique, b.technique)
  }

  lemma RowOrderIsPreorder(o: Order)
    ensures TotalPreorder(RowOrder(o))
  {
    forall a: TechniqueRow, b: TechniqueRow
      ensures RowOrder(o)(a, b) || RowOrder(o)(b, a)
    {
      LexLeTotal(a.technique.title, b.technique.title);
    }
    forall a: TechniqueRow, b: TechniqueRow, c: TechniqueRow | RowOrder(o)(a, b) && RowOrder(o)(b, c)
      ensures RowOrder(o)(a, c)
    {
      if o.key == Title {
        if o.direction == Asc {
          LexLeTransitive(a.technique.title, b.technique.title, c.technique.title);
        } else {
          LexLeTransitive(c.technique.title, b.technique.title, a.technique.title);
        }
      }
    }
  }

  /** The `switch (sort)` of `getAllTechniques`: an unknown or missing word
      means newest first. */
  function PublicOrder(sort: Option<string>): (o: Order)
    ensures o.key == Title <==> sort == Some("title_asc") || sort == Some("title_desc")
    ensures o.key == ViewCount <==> sort == Some("popular")
    ensures o.direction == Asc <==> sort == Some("oldest") || sort == Some("title_asc")
  {
    if sort == Some("oldest") then OrderBy(CreatedAt, Asc)
    else if sort == Some("title_asc") then OrderBy(Title, Asc)
    else if sort == Some("title_desc") then OrderBy(Title, Desc)
    else if sort == Some("popular") then OrderBy(ViewCount, Desc)
    else OrderBy(CreatedAt, Desc)
  }

  /** The query string of `GET /api/techniques`. `category` and `belt` are
      the ids a present, non-empty parameter names. */
  datatype TechniqueQuery = TechniqueQuery(
    category: Option<CategoryId>,
    belt: Option<BeltLevelId>,
    difficulty: Option<string>,
    position: Option<string>,
    search: Option<string>,
    featured: Option<string>,
    limit: Option<nat>,
    offset: Option<nat>,
    sort: Option<string>)

  const DefaultLimit: nat := 20
  const DefaultRelatedLimit: nat := 4

  function Or(n: Option<nat>, default: nat): nat
  {
    if n.Some? then n.value else default
  }

  /** `LIKE '%term%'` on the title or on the description; a NULL
      description never matches. */
  predicate SearchHit(term: string, t: Technique)
  {
    Contains(t.title, term) || (t.description.Some? && Contains(t.description.value, term))
  }

  /** The `where` of `getAllTechniques`: published, and every filter that
      was given. `featured` only filters when it is the word "true". The
      difficulty and the position compare as the column's collation does,
      regardless of the case of ASCII letters. */
  predicate MatchesPublic(q: TechniqueQuery, t: Technique)
  {
    && t.isPublished
    && (q.category.Some? ==> t.categoryId == q.category)
    && (q.belt.Some? ==> t.beltLevelId == q.belt)
    && (Present(q.difficulty) ==> SameIgnoringCase(DifficultyName(t.difficulty), q.difficulty.value))
    && (Present(q.position) ==> t.position.Some? && SameIgnoringCase(t.position.value, q.position.value))
    && (Present(q.search) ==> SearchHit(q.search.value, t))
    && (q.featured == Some("true") ==> t.isFeatured)
  }

  /** `?position=guard` finds a published technique stored under "Guard". */
  lemma PositionFilterIgnoresCase(t: Technique)
    requires t.isPublished && t.position == Some("Guard")
    ensures MatchesPublic(TechniqueQuery(None, None, None, Some("guard"), None, None, None, None, None), t)
  {
    assert LowerChar('G') == 'g';
  }

  function PublicFilter(q: TechniqueQuery): TechniqueRow -> bool
  {
    (row: TechniqueRow) => MatchesPublic(q, row.technique)
  }

  /** Each row with `isFavorite` set from the user's favorite ids. */
  function Flag(rows: seq<TechniqueRow>, favorites: set<TechniqueId>): (r: seq<Listed>)
    ensures |r| == |rows|
    ensures forall i :: 0 <= i < |r| ==> r[i].row == rows[i] && (r[i].isFavorite <==> rows[i].id in favorites)
  {
    seq(|rows|, i requires 0 <= i < |rows| => Listed(rows[i], rows[i].id in favorites))
  }

  /** `getAllTechniques`: the count of every published technique matching
      the filters, and the requested page of them in the requested order,
      each flagged with whether the user favorited it. */
  function ListTechniques(rows: seq<TechniqueRow>, q: TechniqueQuery, favorites: set<TechniqueId>): (r: Counted<Listed>)
    ensures r.count == |Filter(rows, PublicFilter(q))|
    ensures |r.rows| == PageSize(r.count, Or(q.offset, 0), Or(q.limit, DefaultLimit))
    ensures forall i :: 0 <= i < |r.rows| ==>
              r.rows[i].row in rows && r.rows[i].row.technique.isPublished && MatchesPublic(q, r.rows[i].row.technique)
    ensures forall i :: 0 <= i < |r.rows| ==> (r.rows[i].isFavorite <==> r.rows[i].row.id in favorites)
    ensures forall i, j :: 0 <= i < j < |r.rows| ==>
              Before(PublicOrder(q.sort), r.rows[i].row.technique, r.rows[j].row.technique)
    ensures TotalPreorder(RowOrder(PublicOrder(q.sort))) &&
            r.rows == Flag(Page(SortBy(Filter(rows, PublicFilter(q)), RowOrder(PublicOrder(q.sort))),
                                Or(q.offset, 0), Or(q.limit, DefaultLimit)), favorites)
  {
    Counted(|Filter(rows, PublicFilter(q))|, Flag(PublicPage(rows, q), favorites))
  }

  /** The requested page of the matching published rows, in the requested order. */
  function PublicPage(rows: seq<TechniqueRow>, q: TechniqueQuery): (page: seq<TechniqueRow>)
    ensures |page| == PageSize(|Filter(rows, PublicFilter(q))|, Or(q.offset, 0), Or(q.limit, DefaultLimit))
    ensures forall i :: 0 <= i < |page| ==> page[i] in rows && MatchesPublic(q, page[i].technique)
    ensures forall i, j :: 0 <= i < j < |page| ==> Before(PublicOrder(q.sort), page[i].technique, page[j].technique)
    ensures TotalPreorder(RowOrder(PublicOrder(q.sort))) &&
            page == Page(SortBy(Filter(rows, PublicFilter(q)), RowOrder(PublicOrder(q.sort))),
                         Or(q.offset, 0), Or(q.limit, DefaultLimit))
  {
    RowOrderIsPreorder(PublicOrder(q.sort));
    var page := Select(rows, PublicFilter(q), RowOrder(PublicOrder(q.sort)), Or(q.offset, 0), Or(q.limit, DefaultLimit));
    assert forall i :: 0 <= i < |page| ==> page[i] in page;
    page
  }

  /** `getFavorites`: the user's favorited techniques, one page of them (the
      query has no `ORDER BY`, so rows come in table order), all flagged. */
  function ListFavorites(rows: seq<TechniqueRow>, favorites: set<TechniqueId>, limit: Option<nat>, offset: Option<nat>): (r: Counted<Listed>)
    ensures r.count == |Filter(rows, (row: TechniqueRow) => row.id in favorites)|
    ensures |r.rows| == PageSize(r.count, Or(offset, 0), Or(limit, DefaultLimit))
    ensures forall i :: 0 <= i < |r.rows| ==> r.rows[i].row in rows && r.rows[i].row.id in favorites && r.rows[i].isFavorite
    ensures r.rows == Flag(Page(Filter(rows, (row: TechniqueRow) => row.id in favorites), Or(offset, 0), Or(limit, DefaultLimit)), favorites)
  {
    var matching := Filter(rows, (row: TechniqueRow) => row.id in favorites);
    var page := Page(matching, Or(offset, 0), Or(limit, DefaultLimit));
    assert forall i :: 0 <= i < |page| ==> page[i] in matching;
    Counted(|matching|, Flag(page, favorites))
  }

  /** `getFavorites` as written: the `include` asks `UserFavorite` for its
      `Technique` under the alias "technique", but no association leads from
      `UserFavorite` to `Technique` (the many-to-many of server/models/index.js
      runs between `User` and `Technique` through it), so the query is
      refused and every call ends in the `catch`. */
  function ListFavoritesAsWritten(rows: seq<TechniqueRow>, favorites: set<TechniqueId>, limit: Option<nat>, offset: Option<nat>)
      : (r: Result<Counted<Listed>>)
    ensures r == Err(FavoritesServerError)
  {
    Err(FavoritesServerError)
  }

  /** A user who has favorited a technique gets it listed by the intended
      handler and an error from the handler as written. */
  lemma ListFavoritesAsWrittenHidesFavorites(rows: seq<TechniqueRow>, favorites: set<TechniqueId>)
    requires exists i :: 0 <= i < |rows| && rows[i].id in favorites
    ensures ListFavorites(rows, favorites, None, None).rows != []
    ensures ListFavoritesAsWritten(rows, favorites, None, None).Err?
  {
    var i :| 0 <= i < |rows| && rows[i].id in favorites;
    assert rows[i] in Filter(rows, (row: TechniqueRow) => row.id in favorites);
  }

  /** `findByPk` on the rows. */
  function FindRow(rows: seq<TechniqueRow>, id: TechniqueId): (r: Option<TechniqueRow>)
    ensures r.Some? ==> r.value in rows && r.value.id == id
    ensures r.None? <==> forall x :: x in rows ==> x.id != id
  {
    if rows == [] then None
    else if rows[0].id == id then Some(rows[0])
    else FindRow(rows[1..], id)
  }

  /** Position equality in a `where`: a NULL is compared as `IS NULL`, and
      two positions are equal regardless of the case of ASCII letters. */
  predicate SamePosition(a: Option<string>, b: Option<string>)
  {
    match (a, b)
    case (None, None) => true
    case (Some(x), Some(y)) => SameIgnoringCase(x, y)
    case _ => false
  }

  /** The `where` of `getRelatedTechniques`: another published technique
      sharing the category, the belt level or the position. A NULL in the
      current technique is compared as `IS NULL`, so two techniques without
      a category are related. */
  predicate IsRelated(current: TechniqueRow, row: TechniqueRow)
  {
    && row.id != current.id
    && row.technique.isPublished
    && (|| row.technique.categoryId == current.technique.categoryId
        || row.technique.beltLevelId == current.technique.beltLevelId
        || SamePosition(row.technique.position, current.technique.position))
  }

  function RelatedFilter(current: TechniqueRow): TechniqueRow -> bool
  {
    (row: TechniqueRow) => IsRelated(current, row)
  }

  /** The related rows, most viewed first, at most `limit` of them. */
  function RelatedPage(rows: seq<TechniqueRow>, current: TechniqueRow, limit: nat): (page: seq<TechniqueRow>)
    ensures |page| == Min(limit, |Filter(rows, RelatedFilter(current))|)
    ensures forall i :: 0 <= i < |page| ==> page[i] in rows && IsRelated(current, page[i])
    ensures forall i, j :: 0 <= i < j < |page| ==> page[j].technique.viewCount <= page[i].technique.viewCount
    ensures forall x, i :: x in rows && IsRelated(current, x) && x !in page && 0 <= i < |page| ==>
              x.technique.viewCount <= page[i].technique.viewCount
    ensures TotalPreorder(RowOrder(OrderBy(ViewCount, Desc))) &&
            page == Page(SortBy(Filter(rows, RelatedFilter(current)), RowOrder(OrderBy(ViewCount, Desc))), 0, limit)
  {
    RowOrderIsPreorder(OrderBy(ViewCount, Desc));
    var page := Select(rows, RelatedFilter(current), RowOrder(OrderBy(ViewCount, Desc)), 0, limit);
    assert forall i :: 0 <= i < |page| ==> page[i] in page;
    MostViewedFirst(page);
    NoneLeftOutHasMoreViews(rows, current, limit);
    page
  }

  /** No related row outside the first page has more views than one on it. */
  lemma NoneLeftOutHasMoreViews(rows: seq<TechniqueRow>, current: TechniqueRow, limit: nat)
    requires TotalPreorder(RowOrder(OrderBy(ViewCount, Desc)))
    ensures var page := Select(rows, RelatedFilter(current), RowOrder(OrderBy(ViewCount, Desc)), 0, limit);
            forall x, i :: x in rows && IsRelated(current, x) && x !in page && 0 <= i < |page| ==>
              x.technique.viewCount <= page[i].technique.viewCount
  {
    var o := OrderBy(ViewCount, Desc);
    var page := Select(rows, RelatedFilter(current), RowOrder(o), 0, limit);
    FirstPageIsTop(rows, RelatedFilter(current), RowOrder(o), limit);
    forall x, i | x in rows && IsRelated(current, x) && x !in page && 0 <= i < |page|
      ensures x.technique.viewCount <= page[i].technique.viewCount
    {
      assert RelatedFilter(current)(x);
      assert RowOrder(o)(page[i], x);
    }
  }

  lemma MostViewedFirst(page: seq<TechniqueRow>)
    requires SortedBy(page, RowOrder(OrderBy(ViewCount, Desc)))
    ensures forall i, j :: 0 <= i < j < |page| ==> page[j].technique.viewCount <= page[i].technique.viewCount
  {
    forall i, j | 0 <= i < j < |page|
      ensures page[j].technique.viewCount <= page[i].technique.viewCount
    {
      assert RowOrder(OrderBy(ViewCount, Desc))(page[i], page[j]);
    }
  }

  /** `getRelatedTechniques`: at most `limit` (default 4) related techniques,
      most viewed first, never the technique itself. */
  function RelatedTechniques(rows: seq<TechniqueRow>, id: TechniqueId, limit: Option<nat>, favorites: set<TechniqueId>)
      : (r: Result<seq<Listed>>)
    ensures r.Err? <==> forall x :: x in rows ==> x.id != id
    ensures r.Err? ==> r.error == TechniqueNotFound
    ensures r.Ok? ==>
              var current := FindRow(rows, id).value;
              && |r.value| == Min(Or(limit, DefaultRelatedLimit), |Filter(rows, RelatedFilter(current))|)
              && (forall i :: 0 <= i < |r.value| ==>
                    r.value[i].row in rows && IsRelated(current, r.value[i].row) && r.value[i].row.id != id)
              && (forall i :: 0 <= i < |r.value| ==> (r.value[i].isFavorite <==> r.value[i].row.id in favorites))
              && (forall i, j :: 0 <= i < j < |r.value| ==>
                    r.value[j].row.technique.viewCount <= r.value[i].row.technique.viewCount)
              && (forall x, i :: x in rows && IsRelated(current, x) && !Shows(r.value, x) && 0 <= i < |r.value| ==>
                    x.technique.viewCount <= r.value[i].row.technique.viewCount)
    ensures r.Ok? ==> r.value == Flag(RelatedPage(rows, FindRow(rows, id).value, Or(limit, DefaultRelatedLimit)), favorites)
  {
    match FindRow(rows, id)
    case None => Err(TechniqueNotFound)
    case Some(current) =>
      var page := RelatedPage(rows, current, Or(limit, DefaultRelatedLimit));
      FlagShowsEvery(page, favorites);
      Ok(Flag(page, favorites))
  }

  /** Flagging hides no row of the page. */
  lemma FlagShowsEvery(page: seq<TechniqueRow>, favorites: set<TechniqueId>)
    ensures forall x :: x in page ==> Shows(Flag(page, favorites), x)
  {
    forall x | x in page
      ensures Shows(Flag(page, favorites), x)
    {
      var k :| 0 <= k < |page| && page[k] == x;
      assert Flag(page, favorites)[k].row == x;
    }
  }

  /** The listing shows the row. */
  predicate Shows(listed: seq<Listed>, x: TechniqueRow)
  {
    exists k :: 0 <= k < |listed| && listed[k].row == x
  }

  /** The reply of `getTechniqueById`. */
  datatype TechniqueView = TechniqueView(
    id: TechniqueId, technique: Technique, isFavorite: bool, userProgress: Option<Progress>)

  /** The progress row after a view: `last_viewed` refreshed on an existing
      row, or a new row at the column defaults. */
  function Viewed(existing: Option<Progress>, now: int): (p: Progress)
    ensures p.lastViewed == Some(now)
    ensures existing.Some? ==> p.status == existing.value.status && p.percentage == existing.value.percentage
    ensures existing.None? ==> p == Progress(DefaultProgressStatus, Some(DefaultPercentage), Some(now))
  {
    match existing
    case Some(e) => e.(lastViewed := Some(now))
    case None => Progress(DefaultProgressStatus, Some(DefaultPercentage), Some(now))
  }

  /** `getTechniqueById`: an unpublished technique is visible to admins
      only. A successful view bumps the view count and records the view in
      the user's progress. The reply shows the row as it was read, before
      the increment (`increment` does not reload the instance), and the
      progress row only when one already existed. */
  method GetTechniqueById(db: Store, id: TechniqueId, userId: UserId, userRole: Option<string>, now: int)
      returns (r: Result<TechniqueView>)
    requires db.Valid() && userId in db.users
    modifies db`techniques, db`progress
    ensures db.Valid()
    ensures r.Ok? <==> id in old(db.techniques) && (old(db.techniques[id]).isPublished || userRole == Some(AdminRole))
    ensures id !in old(db.techniques) ==> r == Err(TechniqueNotFound)
    ensures id in old(db.techniques) && r.Err? ==> r == Err(AccessDenied)
    ensures r.Err? ==> db.techniques == old(db.techniques) && db.progress == old(db.progress)
    ensures r.Ok? ==>
              var t := old(db.techniques[id]);
              var key := (userId, id);
              && db.techniques == old(db.techniques)[id := t.(viewCount := t.viewCount + 1)]
              && db.progress == old(db.progress)[key := Viewed(Get(old(db.progress), key), now)]
              && r.value == TechniqueView(id, t, key in db.favorites, if key in old(db.progress) then Some(db.progress[key]) else None)
  {
    if id !in db.techniques {
      r := Err(TechniqueNotFound);
      return;
    }
    var t := db.techniques[id];
    if !t.isPublished && userRole != Some(AdminRole) {
      r := Err(AccessDenied);
      return;
    }
    var key := (userId, id);
    var isFavorite := key in db.favorites;
    var existing := Get(db.progress, key);
    var p := RecordView(db, userId, id, now);
    r := Ok(TechniqueView(id, t, isFavorite, if existing.Some? then Some(p) else None));
  }

  /** The writes of a successful view: one more view on the technique, and
      the user's progress row touched or created. */
  method RecordView(db: Store, userId: UserId, id: TechniqueId, now: int) returns (p: Progress)
    requires db.Valid() && userId in db.users && id in db.techniques
    modifies db`techniques, db`progress
    ensures db.Valid()
    ensures p == Viewed(Get(old(db.progress), (userId, id)), now)
    ensures db.progress == old(db.progress)[(userId, id) := p]
    ensures db.techniques == old(db.techniques)[id := old(db.techniques[id]).(viewCount := old(db.techniques[id]).viewCount + 1)]
  {
    var t := db.techniques[id];
    p := Viewed(Get(db.progress, (userId, id)), now);
    var techniques := db.techniques[id := t.(viewCount := t.viewCount + 1)];
    db.progress := db.progress[(userId, id) := p];
    db.techniques := techniques;
  }

  /** Adding a pair to or removing it from a set, whichever changes it. */
  function Toggle<T(!new)>(s: set<T>, x: T): (r: set<T>)
    ensures x in r <==> x !in s
    ensures forall y :: y != x ==> (y in r <==> y in s)
  {
    if x in s then s - {x} else s + {x}
  }

  /** Toggling twice restores the favorites. */
  lemma ToggleTwice<T(!new)>(s: set<T>, x: T)
    ensures Toggle(Toggle(s, x), x) == s
  {
  }

  datatype FavoriteReply = FavoriteReply(isFavorite: bool, message: string)

  const AddedToFavorites := "Added to favorites"
  const RemovedFromFavorites := "Removed from favorites"

  /** `toggleFavorite`: flips the (user, technique) pair and reports the
      new state. */
  method ToggleFavorite(db: Store, userId: UserId, id: TechniqueId) returns (r: Result<FavoriteReply>)
    requires db.Valid() && userId in db.users
    modifies db`favorites
    ensures db.Valid()
    ensures id !in db.techniques ==> r == Err(TechniqueNotFound) && db.favorites == old(db.favorites)
    ensures id in db.techniques ==>
              && db.favorites == Toggle(old(db.favorites), (userId, id))
              && r.Ok?
              && (r.value.isFavorite <==> (userId, id) in db.favorites)
              && r.value.message == (if r.value.isFavorite then AddedToFavorites else RemovedFromFavorites)
  {
    if id !in db.techniques {
      r := Err(TechniqueNotFound);
      return;
    }
    var key := (userId, id);
    if key in db.favorites {
      db.favorites := db.favorites - {key};
      r := Ok(FavoriteReply(false, RemovedFromFavorites));
    } else {
      db.favorites := db.favorites + {key};
      r := Ok(FavoriteReply(true, AddedToFavorites));
    }
  }

  /** The progress row `updateProgress` leaves. A new row takes `status ||
      "not_started"` and `progress_percentage || 0`. An existing row keeps
      its status unless one is given, and takes any percentage that was
      sent at all: 0 is stored and `null` clears it. */
  function MergedProgress(existing: Option<Progress>, status: Field<ProgressStatus>, percentage: Field<int>, now: int)
      : (p: Progress)
    ensures p.lastViewed == Some(now)
    ensures status.Given? ==> p.status == status.value
    ensures !status.Given? ==> p.status == (if existing.Some? then existing.value.status else DefaultProgressStatus)
    ensures existing.None? ==> p.percentage == Some(if TruthyInt(percentage) then percentage.value else DefaultPercentage)
    ensures existing.Some? && Defined(percentage) ==> p.percentage == ToColumn(percentage)
    ensures existing.Some? && !Defined(percentage) ==> p.percentage == existing.value.percentage
  {
    match existing
    case None =>
      Progress(OrEnum(status, DefaultProgressStatus),
               Some(if TruthyInt(percentage) then percentage.value else DefaultPercentage),
               Some(now))
    case Some(e) =>
      Progress(OrEnum(status, e.status), IfDefined(percentage, e.percentage), Some(now))
  }

  /** Sending the same update again changes nothing but the view time,
      except for a first update carrying `progress_percentage: null`: the
      new row stores 0, and the repeat then clears it. */
  lemma MergedProgressRepeat(existing: Option<Progress>, status: Field<ProgressStatus>, percentage: Field<int>, t1: int, t2: int)
    requires existing.Some? || !percentage.Null?
    ensures MergedProgress(Some(MergedProgress(existing, status, percentage, t1)), status, percentage, t2)
            == MergedProgress(existing, status, percentage, t2)
  {
  }

  datatype ProgressReply = ProgressReply(message: string, userProgress: Progress)

  const ProgressUpdated := "Progress updated"

  /** `updateProgress`: creates or updates the user's single progress row
      for the technique and returns it. */
  method UpdateProgress(db: Store, userId: UserId, id: TechniqueId,
                        status: Field<ProgressStatus>, percentage: Field<int>, now: int)
      returns (r: Result<ProgressReply>)
    requires db.Valid() && userId in db.users
    modifies db`progress
    ensures db.Valid()
    ensures id !in db.techniques ==> r == Err(TechniqueNotFound) && db.progress == old(db.progress)
    ensures id in db.techniques ==>
              && db.progress == old(db.progress)[(userId, id) := MergedProgress(Get(old(db.progress), (userId, id)), status, percentage, now)]
              && r == Ok(ProgressReply(ProgressUpdated, db.progress[(userId, id)]))
  {
    if id !in db.techniques {
      r := Err(TechniqueNotFound);
      return;
    }
    var key := (userId, id);
    var p := MergedProgress(Get(db.progress, key), status, percentage, now);
    db.progress := db.progress[key := p];
    r := Ok(ProgressReply(ProgressUpdated, p));
  }
}

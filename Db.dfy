/** The database as the controllers see it through the ORM: one field per
    table, the invariants the schema and its associations (server/models/index.js)
    impose, and the lookups the handlers issue. Requests run one at a time. */
module Db {

  import opened Common
  import opened Models

  /** Every key was handed out by the auto-increment counter `next`. */
  ghost predicate IdsBelow(ids: set<nat>, next: nat)
  {
    0 < next && forall k :: k in ids ==> 0 < k < next
  }

  /** Usernames and emails are unique. */
  ghost predicate UsersOk(users: map<UserId, User>)
  {
    && (forall a, b :: a in users && b in users && users[a].username == users[b].username ==> a == b)
    && (forall a, b :: a in users && b in users && users[a].email == users[b].email ==> a == b)
  }

  /** Each membership belongs to an existing user, and no user has two. */
  ghost predicate MembershipsOk(memberships: map<MembershipId, Membership>, userIds: set<UserId>)
  {
    && (forall k :: k in memberships ==> memberships[k].userId in userIds)
    && (forall a, b :: a in memberships && b in memberships && memberships[a].userId == memberships[b].userId ==> a == b)
  }

  /** Category names are unique. */
  ghost predicate CategoriesOk(categories: map<CategoryId, Category>)
  {
    forall a, b :: a in categories && b in categories && categories[a].name == categories[b].name ==> a == b
  }

  /** A technique's category and belt-level references point at existing rows. */
  ghost predicate TechniquesOk(techniques: map<TechniqueId, Technique>, categoryIds: set<CategoryId>, beltLevelIds: set<BeltLevelId>)
  {
    && (forall k :: k in techniques && techniques[k].categoryId.Some? ==> techniques[k].categoryId.value in categoryIds)
    && (forall k :: k in techniques && techniques[k].beltLevelId.Some? ==> techniques[k].beltLevelId.value in beltLevelIds)
  }

  /** Tag names are unique; the join table links existing techniques to existing tags. */
  ghost predicate TagsOk(tags: map<TagId, string>, techniqueTags: map<TechniqueId, set<TagId>>, techniqueIds: set<TechniqueId>)
  {
    && (forall a, b :: a in tags && b in tags && tags[a] == tags[b] ==> a == b)
    && (forall t :: t in techniqueTags ==> t in techniqueIds && techniqueTags[t] <= tags.Keys)
  }

  /** Favorites, progress rows and notes refer to existing users and
      techniques; there is at most one note per (user, technique). */
  ghost predicate EngagementOk(favorites: set<(UserId, TechniqueId)>, progress: map<(UserId, TechniqueId), Progress>,
                               notes: map<NoteId, Note>, userIds: set<UserId>, techniqueIds: set<TechniqueId>)
  {
    && (forall p :: p in favorites ==> p.0 in userIds && p.1 in techniqueIds)
    && (forall p :: p in progress ==> p.0 in userIds && p.1 in techniqueIds)
    && (forall k :: k in notes ==> notes[k].userId in userIds && notes[k].techniqueId in techniqueIds)
    && (forall a, b ::
          a in notes && b in notes && notes[a].userId == notes[b].userId && notes[a].techniqueId == notes[b].techniqueId
          ==> a == b)
  }

  ghost predicate Inv(users: map<UserId, User>, nextUserId: nat, memberships: map<MembershipId, Membership>, nextMembershipId: nat,
                      categories: map<CategoryId, Category>, nextCategoryId: nat, beltLevels: set<BeltLevelId>, techniques: map<TechniqueId, Technique>, nextTechniqueId: nat,
                      tags: map<TagId, string>, nextTagId: nat, techniqueTags: map<TechniqueId, set<TagId>>,
                      favorites: set<(UserId, TechniqueId)>, progress: map<(UserId, TechniqueId), Progress>, notes: map<NoteId, Note>, nextNoteId: nat)
  {
      && IdsBelow(users.Keys, nextUserId) && UsersOk(users)
      && IdsBelow(memberships.Keys, nextMembershipId) && MembershipsOk(memberships, users.Keys)
      && IdsBelow(categories.Keys, nextCategoryId) && CategoriesOk(categories)
      && IdsBelow(techniques.Keys, nextTechniqueId) && TechniquesOk(techniques, categories.Keys, beltLevels)
      && IdsBelow(tags.Keys, nextTagId) && TagsOk(tags, techniqueTags, techniques.Keys)
      && IdsBelow(notes.Keys, nextNoteId) && EngagementOk(favorites, progress, notes, users.Keys, techniques.Keys)
  }

  /** A new user whose username and email are both unused keeps them unique. */
  lemma UsersOkAfterInsert(users: map<UserId, User>, id: UserId, v: User)
    requires UsersOk(users) && id !in users
    requires forall k :: k in users ==> users[k].username != v.username && users[k].email != v.email
    ensures UsersOk(users[id := v])
  {
  }

  /** Rewriting a user keeps usernames and emails unique when each of the
      two is either the user's own or used by nobody. */
  lemma UsersOkAfterUpdate(users: map<UserId, User>, id: UserId, v: User)
    requires UsersOk(users) && id in users
    requires v.username == users[id].username || forall k :: k in users ==> users[k].username != v.username
    requires v.email == users[id].email || forall k :: k in users ==> users[k].email != v.email
    ensures UsersOk(users[id := v])
  {
  }

  /** Writing note `k` keeps one note per (user, technique) when `k` is
      already that pair's note, or the pair has none yet. */
  lemma EngagementOkAfterNote(favorites: set<(UserId, TechniqueId)>, progress: map<(UserId, TechniqueId), Progress>,
                              notes: map<NoteId, Note>, userIds: set<UserId>, techniqueIds: set<TechniqueId>,
                              k: NoteId, n: Note)
    requires EngagementOk(favorites, progress, notes, userIds, techniqueIds)
    requires n.userId in userIds && n.techniqueId in techniqueIds
    requires k in notes ==> notes[k].userId == n.userId && notes[k].techniqueId == n.techniqueId
    requires k !in notes ==> forall j :: j in notes ==> !(notes[j].userId == n.userId && notes[j].techniqueId == n.techniqueId)
    ensures EngagementOk(favorites, progress, notes[k := n], userIds, techniqueIds)
  {
  }

  /** The ids of the tags whose names are in `names`. */
  function IdsNamed(tags: map<TagId, string>, names: set<string>): set<TagId>
  {
    set k | k in tags && tags[k] in names
  }

  /** One step of `findOrCreate` on a tag name: whether the tag named
      `name` was found or just created as `tagId`, the ids named by the names
      seen so far grow by exactly that tag. */
  lemma IdsNamedStep(tags: map<TagId, string>, next: map<TagId, string>, seen: set<string>, name: string, tagId: TagId)
    requires forall a, b :: a in next && b in next && next[a] == next[b] ==> a == b
    requires tagId in next && next[tagId] == name
    requires next == tags || (tagId !in tags && next == tags[tagId := name] && forall k :: k in tags ==> tags[k] != name)
    ensures IdsNamed(next, seen + {name}) == IdsNamed(tags, seen) + {tagId}
    ensures seen <= tags.Values ==> seen + {name} <= next.Values
  {
    if seen <= tags.Values {
      forall n | n in seen
        ensures n in next.Values
      {
        var k :| k in tags && tags[k] == n;
        assert next[k] == n;
      }
    }
    forall k | k in IdsNamed(next, seen + {name})
      ensures k in IdsNamed(tags, seen) + {tagId}
    {
      if k != tagId {
        assert k in tags;
      }
    }
  }

  /** The tags table after `findOrCreate` on each of `names`: every old row
      keeps its id and its name, and every new row is a tag for one of the
      names that no old row had. */
  predicate TagsGrownBy(before: map<TagId, string>, after: map<TagId, string>, names: set<string>)
  {
    && (forall k :: k in before ==> k in after && after[k] == before[k])
    && (forall k :: k in after && k !in before ==> after[k] in names && after[k] !in before.Values)
  }

  /** Two rounds of `findOrCreate` grow the table as one round over both
      sets of names does. */
  lemma TagsGrownTrans(a: map<TagId, string>, b: map<TagId, string>, c: map<TagId, string>, m: set<string>, n: set<string>)
    requires TagsGrownBy(a, b, m) && TagsGrownBy(b, c, n)
    ensures TagsGrownBy(a, c, m + n)
  {
  }

  /** The rows that reference technique `id` removed from the dependent tables. */
  function FavoritesWithout(favorites: set<(UserId, TechniqueId)>, id: TechniqueId): (r: set<(UserId, TechniqueId)>)
    ensures forall p :: p in r <==> p in favorites && p.1 != id
  {
    set p | p in favorites && p.1 != id
  }

  function ProgressWithout(progress: map<(UserId, TechniqueId), Progress>, id: TechniqueId): (r: map<(UserId, TechniqueId), Progress>)
    ensures forall p :: p in r <==> p in progress && p.1 != id
    ensures forall p :: p in r ==> r[p] == progress[p]
  {
    map p | p in progress && p.1 != id :: progress[p]
  }

  function NotesWithout(notes: map<NoteId, Note>, id: TechniqueId): (r: map<NoteId, Note>)
    ensures forall k :: k in r <==> k in notes && notes[k].techniqueId != id
    ensures forall k :: k in r ==> r[k] == notes[k]
  {
    map k | k in notes && notes[k].techniqueId != id :: notes[k]
  }

  /** Removing a technique with everything that references it leaves every
      remaining reference pointing at a remaining technique. */
  lemma EngagementOkAfterRemoval(favorites: set<(UserId, TechniqueId)>, progress: map<(UserId, TechniqueId), Progress>,
                                 notes: map<NoteId, Note>, userIds: set<UserId>, techniqueIds: set<TechniqueId>, id: TechniqueId)
    requires EngagementOk(favorites, progress, notes, userIds, techniqueIds)
    ensures EngagementOk(FavoritesWithout(favorites, id), ProgressWithout(progress, id), NotesWithout(notes, id),
                         userIds, techniqueIds - {id})
  {
  }

  class Store {
    var users: map<UserId, User>
    /** `User.hasOne(Membership)`: at most one row per user, kept by `findOrCreate`. */
    var memberships: map<MembershipId, Membership>
    var categories: map<CategoryId, Category>
    /** The ids of `belt_levels`, reference data that no handler writes. */
    var beltLevels: set<BeltLevelId>
    var techniques: map<TechniqueId, Technique>
    var tags: map<TagId, string>
    /** The `technique_tags` join table of the many-to-many association. */
    var techniqueTags: map<TechniqueId, set<TagId>>
    /** `user_favorites`: the composite primary key makes it a set of pairs. */
    var favorites: set<(UserId, TechniqueId)>
    /** `user_progress`: unique on (user_id, technique_id). */
    var progress: map<(UserId, TechniqueId), Progress>
    /** `user_notes`: no unique index; one note per pair is kept by `updateNote`. */
    var notes: map<NoteId, Note>

    /** The auto-increment counters; every id handed out is positive. */
    var nextUserId: nat
    var nextMembershipId: nat
    var nextCategoryId: nat
    var nextTechniqueId: nat
    var nextTagId: nat
    var nextNoteId: nat

    constructor (beltLevels: set<BeltLevelId>)
      ensures Valid() && this.beltLevels == beltLevels
      ensures users == map[] && memberships == map[] && categories == map[]
      ensures techniques == map[] && tags == map[] && techniqueTags == map[]
      ensures favorites == {} && progress == map[] && notes == map[]
    {
      users, memberships, categories, techniques := map[], map[], map[], map[];
      this.beltLevels := beltLevels;
      tags, techniqueTags, favorites, progress, notes := map[], map[], {}, map[], map[];
      nextUserId, nextMembershipId, nextCategoryId := 1, 1, 1;
      nextTechniqueId, nextTagId, nextNoteId := 1, 1, 1;
    }

    /** The store invariant: each table satisfies its own rules and refers
        only to rows that exist. */
    ghost predicate Valid()
      reads this
    {
      Inv(users, nextUserId, memberships, nextMembershipId, categories, nextCategoryId, beltLevels,
          techniques, nextTechniqueId, tags, nextTagId, techniqueTags, favorites, progress, notes, nextNoteId)
    }

    /** `user.update(...)`: rewrites one user row. */
    method SetUser(id: UserId, v: User)
      requires Valid() && id in users && UsersOk(users[id := v])
      modifies this`users
      ensures Valid() && users == old(users)[id := v]
    {
      users := users[id := v];
    }

    /** `membership.update(...)`: rewrites a membership, keeping its owner. */
    method SetMembership(k: MembershipId, m: Membership)
      requires Valid() && k in memberships && memberships[k].userId == m.userId
      modifies this`memberships
      ensures Valid() && memberships == old(memberships)[k := m]
    {
      memberships := memberships[k := m];
    }

    /** `Membership.create(...)` for a user who has none yet. */
    method InsertMembership(m: Membership) returns (k: MembershipId)
      requires Valid() && m.userId in users
      requires forall j :: j in memberships ==> memberships[j].userId != m.userId
      modifies this`memberships, this`nextMembershipId
      ensures Valid() && k !in old(memberships) && memberships == old(memberships)[k := m]
    {
      k := nextMembershipId;
      memberships := memberships[k := m];
      nextMembershipId := nextMembershipId + 1;
    }

    /** `Technique.create(...)`: a new row under the next id, which no join row mentions yet. */
    method InsertTechnique(t: Technique) returns (id: TechniqueId)
      requires Valid() && (t.categoryId.Some? ==> t.categoryId.value in categories)
      requires t.beltLevelId.Some? ==> t.beltLevelId.value in beltLevels
      modifies this`techniques, this`nextTechniqueId
      ensures Valid() && id !in old(techniques) && techniques == old(techniques)[id := t]
      ensures TagsOf(id) == {}
    {
      id := nextTechniqueId;
      techniques := techniques[id := t];
      nextTechniqueId := nextTechniqueId + 1;
    }

    /** `technique.update(...)`: rewrites one technique row. */
    method SetTechnique(id: TechniqueId, t: Technique)
      requires Valid() && id in techniques && (t.categoryId.Some? ==> t.categoryId.value in categories)
      requires t.beltLevelId.Some? ==> t.beltLevelId.value in beltLevels
      modifies this`techniques
      ensures Valid() && techniques == old(techniques)[id := t]
    {
      techniques := techniques[id := t];
    }

    /** `technique.destroy()`: the row goes, and with it its join rows,
        favorites, progress rows and notes (the associations declare
        non-null foreign keys, which cascade on delete). */
    method RemoveTechnique(id: TechniqueId)
      requires Valid()
      modifies this`techniques, this`techniqueTags, this`favorites, this`progress, this`notes
      ensures Valid()
      ensures techniques == old(techniques) - {id} && techniqueTags == old(techniqueTags) - {id}
      ensures favorites == FavoritesWithout(old(favorites), id)
      ensures progress == ProgressWithout(old(progress), id)
      ensures notes == NotesWithout(old(notes), id)
    {
      EngagementOkAfterRemoval(favorites, progress, notes, users.Keys, techniques.Keys, id);
      techniques := techniques - {id};
      techniqueTags := techniqueTags - {id};
      favorites := FavoritesWithout(favorites, id);
      progress := ProgressWithout(progress, id);
      notes := NotesWithout(notes, id);
    }

    /** `Tag.findOrCreate({where: {name}})`: the one tag with that name, made if there is none. */
    method FindOrCreateTag(name: string) returns (tagId: TagId)
      requires Valid()
      modifies this`tags, this`nextTagId
      ensures Valid() && tagId in tags && tags[tagId] == name
      ensures || tags == old(tags)
              || (tagId !in old(tags) && tags == old(tags)[tagId := name] && forall k :: k in old(tags) ==> old(tags)[k] != name)
    {
      if exists k :: k in tags && tags[k] == name {
        tagId :| tagId in tags && tags[tagId] == name;
      } else {
        tagId := nextTagId;
        tags := tags[tagId := name];
        nextTagId := nextTagId + 1;
      }
    }

    /** `technique.addTag(tag)`: one more row in the join table. */
    method AddTag(t: TechniqueId, tagId: TagId)
      requires Valid() && t in techniques && tagId in tags
      modifies this`techniqueTags
      ensures Valid() && techniqueTags == old(techniqueTags)[t := old(TagsOf(t)) + {tagId}]
    {
      techniqueTags := techniqueTags[t := TagsOf(t) + {tagId}];
    }

    /** `technique.setTags([])`: the technique's join rows go. */
    method ClearTags(t: TechniqueId)
      requires Valid()
      modifies this`techniqueTags
      ensures Valid() && techniqueTags == old(techniqueTags) - {t}
    {
      techniqueTags := techniqueTags - {t};
    }

    /** `userNote.update(...)`: rewrites a note, keeping its user and technique. */
    method SetNote(k: NoteId, n: Note)
      requires Valid() && k in notes && notes[k].userId == n.userId && notes[k].techniqueId == n.techniqueId
      modifies this`notes
      ensures Valid() && notes == old(notes)[k := n]
    {
      EngagementOkAfterNote(favorites, progress, notes, users.Keys, techniques.Keys, k, n);
      notes := notes[k := n];
    }

    /** The create half of `UserNote.findOrCreate`, for a pair without a note. */
    method InsertNote(n: Note) returns (k: NoteId)
      requires Valid() && n.userId in users && n.techniqueId in techniques && !HasNote(n.userId, n.techniqueId)
      modifies this`notes, this`nextNoteId
      ensures Valid() && k !in old(notes) && notes == old(notes)[k := n]
    {
      k := nextNoteId;
      EngagementOkAfterNote(favorites, progress, notes, users.Keys, techniques.Keys, k, n);
      notes := notes[k := n];
      nextNoteId := nextNoteId + 1;
    }

    /** `note.destroy()` */
    method RemoveNote(k: NoteId)
      requires Valid() && k in notes
      modifies this`notes
      ensures Valid() && notes == old(notes) - {k}
    {
      notes := notes - {k};
    }

    /** `User.findOne({where: {username}})` finds a row. */
    predicate UsernameTaken(name: string)
      reads this`users
    {
      exists k :: k in users && users[k].username == name
    }

    /** `User.findOne({where: {email}})` finds a row. */
    predicate EmailTaken(email: string)
      reads this`users
    {
      exists k :: k in users && users[k].email == email
    }

    /** `User.findOne({where: {email}})`: the one user with that email. */
    function UserByEmail(email: string): (r: Option<UserId>)
      reads this`users
      requires UsersOk(users)
      ensures r.None? <==> !EmailTaken(email)
      ensures r.Some? ==> r.value in users && users[r.value].email == email
    {
      if EmailTaken(email) then Some(var k :| k in users && users[k].email == email; k) else None
    }

    predicate HasLiveMembership(u: UserId, now: int)
      reads this`memberships
    {
      LiveMembership(memberships, u, now)
    }

    /** `Membership.findOne({where: {user_id}})` finds a row. */
    predicate HasMembershipRow(u: UserId)
      reads this`memberships
    {
      exists k :: k in memberships && memberships[k].userId == u
    }

    /** The technique ids a user has favorited. */
    function FavoriteIds(u: UserId): (ids: set<TechniqueId>)
      reads this`favorites
      ensures forall t :: t in ids <==> (u, t) in favorites
    {
      set p | p in favorites && p.0 == u :: p.1
    }

    predicate HasNote(u: UserId, t: TechniqueId)
      reads this`notes
    {
      exists k :: k in notes && notes[k].userId == u && notes[k].techniqueId == t
    }

    predicate CategoryNameTaken(name: string)
      reads this`categories
    {
      exists k :: k in categories && categories[k].name == name
    }

    /** The tag ids linked to a technique (none when it has no join rows). */
    function TagsOf(t: TechniqueId): set<TagId>
      reads this`techniqueTags
    {
      if t in techniqueTags then techniqueTags[t] else {}
    }

    /** The ids of the tags whose names are in `names`. */
    function TagIdsNamed(names: set<string>): set<TagId>
      reads this`tags
    {
      IdsNamed(tags, names)
    }

    /** The technique ids of the techniques in category `c`. */
    function TechniquesIn(c: CategoryId): set<TechniqueId>
      reads this`techniques
    {
      set k | k in techniques && techniques[k].categoryId == Some(c)
    }
  }
}

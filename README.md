# Workshop Honolulu BJJ: the membership-gated video library, in Dafny

This project models the server core of the Workshop Honolulu BJJ video library and proves properties of the model. The server is an Express/Sequelize API where members watch technique videos, keep favorites, progress and notes, and admins manage users, memberships, categories and techniques. The model also covers the browser's API client.

The database is one `Db.Store` object with one field per table:

- users, memberships, categories, techniques and tags are maps keyed by their auto-increment ids;
- belt levels are the set of their ids, reference data that no handler writes;
- the `technique_tags` join table is a map from technique to a set of tag ids;
- favorites are a set of (user, technique) pairs;
- progress is a map keyed by (user, technique);
- notes are a map keyed by note id.

`Store.Valid()` is the store invariant. It holds the uniqueness rules (username, email, category name, tag name, one membership per user, one note per pair) and the references that the associations in `server/models/index.js` declare. Every handler is proved to preserve it.

## How the model is organised

- **Handlers that change the store** are methods on a `Store`. Their frames name the tables they touch. A handler's postcondition states the reply, every error case, and the new table contents as a function of the old ones; the other tables are left as they were.
- **Handlers that only read** are functions of the table, given as a sequence of rows: listings, filters, sort switches and page slices. They are built from one generic pipeline (`Ordering.Filter`, `Ordering.SortBy`, `Ordering.Page`) that mirrors a `findAndCountAll` with `where`, `order`, `limit` and `offset`.
- **The middleware** is a set of pure decision functions (`Authenticate`, `AdminGate`, `MembershipGate`). The `AuthMiddleware.Request` class applies them to the fields `req` carries.
- **The routers** are data: one route table per router, mounted under its prefix as in `server.js`. `Routes.Dispatch` finds the first matching route, and `Routes.RunGates` runs that route's middleware chain. As in Express by default, literal words and mount prefixes match regardless of the case of ASCII letters, and a trailing slash is ignored.
- **The client** is `ApiClient.Client`, an object holding `localStorage` and `window.location`, with the two axios interceptors as methods.

## Conventions

- **JavaScript truthiness is explicit.** A JSON body field is `Field<T>`: `Absent` (undefined), `Null` or `Given(v)`. `TruthyStr`, `TruthyInt` and `TruthyId` say when `x || old` keeps `x`, so `""` and `0` count as falsy. `IfDefined` models `x !== undefined ? x : old`. A query parameter is an `Option<string>`, where an empty string counts as absent.
- **External calls are parameters:**
  - `bcrypt.compare` is a parameter `compare`;
  - the bcrypt hash of a new password is a parameter `newHash` or `passwordHash`;
  - `jwt.verify` with the server's secret and clock is `verify: string -> Option<Claims>`;
  - a signed token is represented by its payload.
- **Time** is an integer `now`. The calendar month that `setMonth(getMonth() + 1)` adds is a parameter `monthLater`.

## Model

| member | source | states |
|---|---|---|
| `AuthMiddleware.TokenFromHeader` | server/middleware/auth.middleware.js:8-12 | A token read from `Authorization` is never empty and never contains a space, and a request without the header has no token. `BearerRoundTrip` shows that it is the word after "Bearer ". |
| `AuthMiddleware.Authenticate` | server/middleware/auth.middleware.js:5-33 | `verifyToken` accepts exactly when there is a token, `verify` decodes it, and the user it names exists. On success the claims come from the token. No token gives 401 "No token provided", a failed verify gives 401 "Invalid or expired token", and every refusal is a 401. |
| `AuthMiddleware.StoredRoleIsNotConsulted` | server/middleware/auth.middleware.js:18-26 | Rewriting a stored user (its role, say) never changes what `verifyToken` grants to an existing token. Only the user's existence is looked up. |
| `AuthMiddleware.AdminGate` | server/middleware/auth.middleware.js:36-41 | `isAdmin` passes exactly when the request's role is "admin", and otherwise answers 403 "Requires admin privileges". |
| `AuthMiddleware.MembershipGate` | server/middleware/auth.middleware.js:44-78 | `hasMembership` as intended passes exactly for admins, for a truthy token flag, or for a user with some membership that is active and whose end date is at least `now`. A pass after the live check marks the request as a member's. Admins and flagged requests pass unchanged. A refusal for a known user is the 403 with `requiresMembership`. |
| `AuthMiddleware.MembershipGateSkipsLookup` | server/middleware/auth.middleware.js:46-51 | For admins and truthy token flags the decision depends on neither the membership table nor the clock. |
| `AuthMiddleware.StaleTokenRevalidated` | server/middleware/auth.middleware.js:51-70 | A token minted without a live membership is refused while the user has none. Once a live row exists, the same token passes and the request is flagged as a member's. |
| `AuthMiddleware.MembershipGateAsWritten` | server/middleware/auth.middleware.js:52-60 | The file as written does not import `Membership` or `Op`. The gate passes only admins and truthy token flags, and answers 500 whenever it reaches the lookup. |
| `AuthMiddleware.MembershipGateAsWrittenRefusesMembers` | server/middleware/auth.middleware.js:51-67 | A member with a live membership whose token has no flag (every token from `register`) is let through by the intended gate and answered 500 by the gate as written. |
| `AuthMiddleware.Request.VerifyToken` | server/middleware/auth.middleware.js:24-28 | On success, `req.userId`, `req.userRole` and `req.hasMembership` are copied from the token and `next` is called. On failure the request is halted with `Authenticate`'s error and `req` is unchanged. |
| `AuthMiddleware.Request.IsAdmin` | server/middleware/auth.middleware.js:36-41 | Calls `next` exactly when `req.userRole` is "admin". |
| `AuthMiddleware.Request.HasMembership` | server/middleware/auth.middleware.js:68-73 | Applies `MembershipGate` to `req`. After a live check passes, `req.hasMembership` becomes true and nothing else on `req` changes. |
| `AuthController.ReplyOf` | server/controllers/auth.controller.js:44-52 | The user part of every auth reply carries the id, username, email, first and last name and role of the row. The datatype has no password field. |
| `AuthController.NewMember` | server/controllers/auth.controller.js:28-35 | A registered user's role is always "member", whatever the request sends. The stored hash is the one given, and there is no profile picture. |
| `AuthController.Register` | server/controllers/auth.controller.js:6-57 | Registration fails exactly when the username OR the email is already in use. It then answers 400 and writes nothing. Otherwise one member row is added under a fresh id, and the token payload is exactly `{id, role: "member"}` with no membership flag. |
| `AuthController.Login` | server/controllers/auth.controller.js:60-112 | An unknown email, a `null` email and a wrong password all answer 400 "Invalid credentials". A missing email, or a missing or `null` password for a known email, answers 500: the `where` or `bcrypt.compare` throws. Login succeeds exactly when some user has that email and the password matches. The reply's `hasMembership` is the live-membership predicate, and the token carries the same flag, id and role. |
| `AuthController.GetCurrentUser` | server/controllers/auth.controller.js:115-151 | Answers 404 exactly when the user is gone. Otherwise the reply shows the row without its password, and recomputes `hasMembership` live from the membership table. |
| `AuthController.RegisterAsWritten` | server/controllers/auth.controller.js:11-15 | As written, `Op` is not imported, so every registration answers 500. |
| `AuthController.RegisterAsWrittenRefusesFreshUser` | server/controllers/auth.controller.js:17-21 | A registration with a fresh username and email, which the intended handler accepts, is answered 500 as written. |
| `AuthController.LoginAsWritten` | server/controllers/auth.controller.js:77-85 | As written, login answers 500 exactly for correct credentials, and 400 "Invalid credentials" otherwise. |
| `AuthController.GetCurrentUserAsWritten` | server/controllers/auth.controller.js:126-134 | As written, `getCurrentUser` answers 500 exactly when the user exists, and 404 otherwise. |
| `TechniqueController.RowOrderIsPreorder` | server/controllers/technique.controller.js:58-76 | Every `ORDER BY` a technique listing can use is a total preorder on rows. |
| `TechniqueController.PublicOrder` | server/controllers/technique.controller.js:58-76 | The sort switch maps "oldest" to created_at ASC, "title_asc" or "title_desc" to title ASC or DESC, and "popular" to view_count DESC. Any other value, or none, gives created_at DESC. Each direction is stated both ways. |
| `TechniqueController.Flag` | server/controllers/technique.controller.js:97-107 | Rows keep their order, and a row's `isFavorite` is true exactly when its id is among the user's favorites. |
| `TechniqueController.ListTechniques` | server/controllers/technique.controller.js:13-114 | `count` is the number of matching published rows. `rows` is exactly the requested page (default limit 20, offset 0) of the matching rows sorted by the requested order, each flagged with the user's favorites. Every row is published and satisfies every given filter (AND); difficulty and position compare regardless of the case of ASCII letters, as the column collation does. |
| `TechniqueController.PublicPage` | server/controllers/technique.controller.js:28-85 | The `where` starts from `is_published: true` and adds the category, belt, difficulty, position, search (title OR description) and `featured === "true"` conditions. Difficulty and position match regardless of the case of ASCII letters, so `?position=guard` keeps a "Guard" row. The page is exactly the slice from `offset` of length `limit` of the accepted rows sorted by the requested order, so its size is the one limit and offset give. |
| `TechniqueController.ListFavoritesAsWritten` | server/controllers/technique.controller.js:280-289 | As written, the `include` loads `Technique` as `technique` from `UserFavorite`, which has no such association, so every call answers 500. |
| `TechniqueController.ListFavoritesAsWrittenHidesFavorites` | server/controllers/technique.controller.js:280-289 | A user with a favorite gets a non-empty page from the intended handler and an error from the handler as written. |
| `TechniqueController.ListFavorites` | server/controllers/technique.controller.js:275-307 | `getFavorites` as intended: counts the user's favorited techniques and returns exactly the page of them that limit and offset select from the table, every one flagged `isFavorite: true`. |
| `TechniqueController.FindRow` | server/controllers/technique.controller.js:316-319 | `findByPk` on the rows: a row with that id when there is one, and `None` exactly when there is none. |
| `TechniqueController.PositionFilterIgnoresCase` | server/controllers/technique.controller.js:42-44 | `?position=guard` keeps a published technique stored with position "Guard". |
| `TechniqueController.RelatedPage` | server/controllers/technique.controller.js:322-335 | At most `limit` related rows are returned: published, not the technique itself, and sharing its category, belt level or position (positions compared regardless of the case of ASCII letters, two NULLs as `IS NULL`). The page is exactly the first `limit` related rows sorted by views, descending. So it has `min(limit, related rows)` rows, and no related row left out has more views than any row returned. |
| `TechniqueController.RelatedTechniques` | server/controllers/technique.controller.js:310-363 | Answers 404 exactly when the technique is missing. Otherwise it returns the related page (default limit 4; related means sharing the category, the belt level or the position in any letter case), never containing the technique itself, ordered by views descending, with favorite flags. It is exactly `Flag(RelatedPage(..))`, so no technique appears twice, and no related technique left out has more views than one returned. |
| `TechniqueController.Viewed` | server/controllers/technique.controller.js:159-170 | After a view the progress row has `last_viewed = now`. An existing row keeps its status and percentage, and a new row is not_started at 0. |
| `TechniqueController.GetTechniqueById` | server/controllers/technique.controller.js:117-188 | Missing gives 404. An unpublished technique for a non-admin gives 403 with no write at all. Success happens exactly for a published technique or an admin: view_count goes up by exactly 1 and the progress row is touched or created. The reply shows the row as read before the increment, and shows `userProgress` only when a row existed before. |
| `TechniqueController.RecordView` | server/controllers/technique.controller.js:158-174 | The writes of a successful view: one more view on that technique, and the user's progress row for it set to `Viewed`. |
| `TechniqueController.Toggle` | server/controllers/technique.controller.js:209-220 | The toggled pair changes membership, and every other pair keeps its membership. |
| `TechniqueController.ToggleTwice` | server/controllers/technique.controller.js:209-220 | Two toggles of the same pair restore the favorites. |
| `TechniqueController.ToggleFavorite` | server/controllers/technique.controller.js:191-225 | A missing technique gives 404 and no change. Otherwise the (user, technique) pair is toggled. The reply's `isFavorite` is true exactly when the pair is now present, with the matching message. |
| `TechniqueController.MergedProgress` | server/controllers/technique.controller.js:240-262 | On create, status is `status` or not_started and the percentage is the value if truthy, else 0. On update, status is replaced only when given, and the percentage whenever it was sent (0 is stored, null clears it). `last_viewed` is always `now`. |
| `TechniqueController.MergedProgressRepeat` | server/controllers/technique.controller.js:245-261 | Re-sending the same progress update changes nothing but the view time. The exception is a first update with `progress_percentage: null`, which stores 0 and then clears on the repeat. |
| `TechniqueController.UpdateProgress` | server/controllers/technique.controller.js:228-272 | A missing technique gives 404 and no change. Otherwise exactly the user's progress row for the technique becomes `MergedProgress` of the old one, and is returned. |
| `UserController.ProfileOf` | server/controllers/user.controller.js:65-76 | The profile reply shows the row's id, username, email, first and last name, picture and role. The datatype has no password. |
| `UserController.GetProfile` | server/controllers/user.controller.js:13-29 | Answers 404 exactly for a missing user. Otherwise it returns the profile, with a membership exactly when the user has one, and that membership is the user's own. |
| `UserController.IdentityClash` | server/controllers/user.controller.js:42-55 | A username, then an email, is refused only when it is given, non-empty, different from the user's current one, and used by some user. Resubmitting your own email never clashes. The username error takes precedence over the email error. |
| `UserController.MergedProfile` | server/controllers/user.controller.js:58-63 | Each of username, email, first and last name becomes the sent value when it is non-empty and is kept otherwise. Role, password hash, picture and creation time never change. |
| `UserController.MergedIdentityStaysUnique` | server/controllers/user.controller.js:42-63 | When `IdentityClash` finds nothing, the merged row keeps usernames and emails unique. |
| `UserController.UpdateProfile` | server/controllers/user.controller.js:32-81 | A missing user gives 404. A clash gives its 400 and nothing is written. Otherwise exactly the user's row becomes `MergedProfile`, and the reply shows it without its password. |
| `UserController.ChangePassword` | server/controllers/user.controller.js:84-119 | The current password is checked before the new-password rule. A missing or `null` current password for an existing user gives 500, because `bcrypt.compare` throws. A missing, empty or shorter-than-6 new password gives 400 and leaves the hash unchanged. Success happens exactly when both checks pass, and then only the user's hash changes. |
| `UserController.RecentFirstIsPreorder` | server/controllers/user.controller.js:146-146 | `ORDER BY last_viewed DESC`, with NULLs last, is a total preorder. |
| `UserController.UserProgress` | server/controllers/user.controller.js:122-154 | `getUserProgress` as intended: only the caller's rows, of the given status (in any ASCII letter case) when one is given, counted. The rows are exactly the requested page of them sorted most recently viewed first. |
| `UserController.UserProgressAsWritten` | server/controllers/user.controller.js:133-147 | As written, the `include` names `Category` and `BeltLevel`, which the file does not import, so every call answers 500. |
| `UserController.UserProgressAsWrittenHidesRows` | server/controllers/user.controller.js:138-141 | A user with progress rows gets a non-empty page from the intended handler and an error from the handler as written. |
| `UserController.UpdateNote` | server/controllers/user.controller.js:225-262 | A missing technique gives 404 and no change. A `null` note, or an absent one when the pair has no note, violates the NOT NULL column: 500 and no change. Otherwise the pair's one note is created with the text ("Note created successfully") exactly when there was none, or keeps its row with the sent text, or its old text when none is sent ("Note updated successfully"). No other note changes, and `updated_at` is not refreshed. |
| `UserController.DeleteNote` | server/controllers/user.controller.js:265-289 | No note for the pair gives 404 "Note not found" and no change. Otherwise exactly that note is removed: the pair has no note left, one row fewer, and every other note unchanged. |
| `UserController.OnlyNote` | server/controllers/user.controller.js:270-282 | Under the store invariant (kept by `updateNote`, since the table has no unique index), a note is the only one of its pair, so removing it leaves one row fewer. |
| `AdminController.LiveRows` | server/controllers/admin.controller.js:21-28 | The memberships counted are exactly those with status active and an end date at or after `now`. |
| `AdminController.ActiveMembersAreUsers` | server/controllers/admin.controller.js:21-28 | Because no user has two memberships, the active-member count equals the number of users with a live membership. |
| `AdminController.OwnersCount` | server/models/index.js:16-17 | Distinct memberships have distinct owners under `hasOne`, so a set of memberships has as many owners as rows. |
| `AdminController.GetDashboardStats` | server/controllers/admin.controller.js:17-83 | The totals are the sizes of the user, technique and category tables. `activeMembers` is the live count, which equals the number of users with live access and never exceeds `totalUsers`. |
| `AdminController.AccountOf` | server/controllers/admin.controller.js:38-38 | An admin listing shows a user's columns without the password. |
| `AdminController.Accounts` | server/controllers/admin.controller.js:122-129 | Each user row is shown as its account, in the same order. |
| `AdminController.RecentUsers` | server/controllers/admin.controller.js:35-39 | The dashboard's recent users are exactly the first 5 accounts sorted newest first, so no account left out was created later than one shown. |
| `AdminController.PopularTechniques` | server/controllers/admin.controller.js:42-46 | The dashboard's popular techniques are exactly the first 5 rows, published or not, sorted by views descending, so no technique left out has more views than one shown. |
| `AdminController.UserOrderOf` | server/controllers/admin.controller.js:107-119 | The users sort switch maps "oldest" and "username" to their orders, both ways. Everything else means newest first. |
| `AdminController.AccountOrderIsPreorder` | server/controllers/admin.controller.js:107-119 | Every user order is a total preorder. |
| `AdminController.ListUsers` | server/controllers/admin.controller.js:86-136 | The count of accounts that match the search (username, email, first or last name) and the role (compared regardless of the case of ASCII letters), and exactly the requested page of them sorted by the requested order. |
| `AdminController.MergedUser` | server/controllers/admin.controller.js:166-172 | The five fields are each replaced only when non-empty. The role can change, and the password hash, picture and creation time cannot. |
| `AdminController.UserUpdate` | server/controllers/admin.controller.js:145-163 | A missing user gives 404. Otherwise the update fails exactly when `IdentityClash` finds a changed username or email already taken, and with that error. An accepted update writes `MergedUser`. |
| `AdminController.UserUpdateKeepsIdentitiesUnique` | server/controllers/admin.controller.js:150-172 | A row that `UserUpdate` accepts keeps usernames and emails unique. |
| `AdminController.UpdateUser` | server/controllers/admin.controller.js:139-185 | Answers with `UserUpdate`'s error and writes nothing, or writes exactly its row and answers with the account without its password. |
| `AdminController.NewMembership` | server/controllers/admin.controller.js:200-209 | The `findOrCreate` defaults: each given field, else active, start `now`, end one month later, monthly. |
| `AdminController.DefaultMembershipIsLive` | server/controllers/admin.controller.js:202-208 | A membership created without a status or an end date lets the user in from `now` until one month later. |
| `AdminController.MergedMembership` | server/controllers/admin.controller.js:211-219 | On an existing membership, each given field overwrites, and the owner never changes. |
| `AdminController.EmptyMembershipUpdate` | server/controllers/admin.controller.js:213-218 | An update that names no field leaves the membership as it is. |
| `AdminController.UpdateMembership` | server/controllers/admin.controller.js:188-229 | A missing user gives 404 and no change. A user without a membership gets exactly one new row with `NewMembership`. A user with one gets exactly that row rewritten with `MergedMembership`. Either way the user ends with exactly one membership, which the reply carries. |
| `AdminController.RewriteMembership` | server/controllers/admin.controller.js:211-219 | The update branch: only that row changes, to `MergedMembership`, and it stays its owner's only membership. |
| `AdminController.CreateMembership` | server/controllers/admin.controller.js:200-209 | The create branch: one new row under a fresh id, with `NewMembership`, which becomes the user's only membership. |
| `AdminController.OneMembershipPerUser` | server/models/index.js:16-17 | With `User.hasOne(Membership)` kept as an invariant, no other row has the same owner. |
| `AdminController.ByNameIsPreorder` | server/controllers/admin.controller.js:234-236 | Ordering categories by name is a total preorder. |
| `AdminController.ListCategories` | server/controllers/admin.controller.js:232-243 | `getCategories` returns every category row, each exactly once (a permutation), ordered by name. |
| `AdminController.CreateCategory` | server/controllers/admin.controller.js:246-270 | Fails with 400 "Category already exists" exactly when the name is taken, and writes nothing. Otherwise it adds one row under a fresh id. |
| `AdminController.UpdateCategory` | server/controllers/admin.controller.js:273-308 | A missing category gives 404. A rename to a different, taken name gives 400, while keeping the same name is allowed. A failure writes nothing. Otherwise the name and description are each replaced only when non-empty. |
| `AdminController.DeleteCategory` | server/controllers/admin.controller.js:311-342 | A missing category gives 404. While any technique references it, the answer is 400 with that number of techniques and the category stays. Success happens exactly when the category exists and is unused, and removes exactly it. |
| `AdminController.AdminOrder` | server/controllers/admin.controller.js:379-395 | The admin sort switch maps "oldest", "title" and "popular" to their orders, both ways. Everything else means newest first. |
| `AdminController.ListAdminTechniques` | server/controllers/admin.controller.js:345-411 | Published and unpublished alike unless `published` is sent, in which case only "true" selects published rows. Applies the search, category and belt filters and returns their count and exactly the requested page of the matching rows sorted by the requested order. |
| `AdminController.NewTechnique` | server/controllers/admin.controller.js:432-444 | The instructor is "Larry Hope" when not given non-empty. `is_featured` is set only for `true`, and `is_published` unless `false`. The view count is 0, and nullable columns are null when not sent. |
| `AdminController.NewTechniqueDefaults` | server/models/technique.model.js:46-61 | A technique created without instructor or flags gets the column defaults: "Larry Hope", not featured, published. |
| `AdminController.TrimmedNamesStep` | server/controllers/admin.controller.js:448-452 | Visiting one more tag name adds exactly its trimmed form to the set of names seen. |
| `AdminController.LinkTag` | server/controllers/admin.controller.js:450-455 | One pass of the loop: the tag with that name is found or created, and linked to the technique. Existing tags keep their ids and names, a new tag row is added only for that name when no tag had it, and other techniques' tags are unchanged. |
| `AdminController.LinkTags` | server/controllers/admin.controller.js:447-457 | After the loop, the technique's tags are its old ones plus exactly the tags named by the trimmed names, each of which now exists. Existing tag rows are untouched, and the only rows added are tags for trimmed names that had none (`TagsGrownBy`). Other techniques' tags are unchanged. |
| `AdminController.ReplaceTags` | server/controllers/admin.controller.js:519-533 | `setTags([])` followed by the loop leaves the technique with exactly the tags its trimmed names pick out. Existing tag rows keep their names, the only rows added are tags for trimmed names that had none, and other techniques' tags are unchanged. |
| `AdminController.CreateTechnique` | server/controllers/admin.controller.js:414-472 | Fails with 500 and no write exactly when a required column is missing or a given category or belt level does not exist. Otherwise it adds one row, `NewTechnique`, under a fresh id. Its tags are exactly those named by the trimmed tag names, and are returned with it. The tags table keeps every old row, and gains only tags for trimmed names that had none. |
| `AdminController.MergedTechnique` | server/controllers/admin.controller.js:500-516 | The category changes only for a truthy id. The view count and both dates never change. |
| `AdminController.EmptyTechniqueUpdate` | server/controllers/admin.controller.js:500-516 | An update that sends no field leaves the technique as it is. |
| `AdminController.FullUpdateIsCreate` | server/controllers/admin.controller.js:500-516 | An update that gives every column a value that counts writes the same row `createTechnique` would create from that body, apart from views and dates. The `OR old` and `!== undefined` fallbacks then overwrite every column. |
| `AdminController.MergedTechniqueFallbacks` | server/controllers/admin.controller.js:500-516 | Column by column: title, video URL and instructor take a non-empty sent string; the belt level a truthy id; difficulty any sent value; description, thumbnail and position any defined value, `null` included, which clears them; the two flags any sent boolean. Otherwise the old value stays. |
| `AdminController.EmptyStringsMergeDifferently` | server/controllers/admin.controller.js:500-516 | An empty title keeps the old title (`||`), while an empty description is written (`!== undefined`). |
| `AdminController.MergedTechniqueIdempotent` | server/controllers/admin.controller.js:500-516 | Applying the same update twice is the same as applying it once. |
| `AdminController.UpdateTechnique` | server/controllers/admin.controller.js:475-548 | A missing technique gives 404. A truthy category or belt-level id that names no row gives 500. Success happens exactly otherwise: the row becomes `MergedTechnique`. When `tags` is sent (even `[]`) the tag set is replaced by exactly the trimmed names, and the tags table keeps every old row and gains only tags for trimmed names that had none. When omitted, both are unchanged. |
| `AdminController.DeleteTechnique` | server/controllers/admin.controller.js:551-571 | A missing technique gives 404, and no table changes. Otherwise the row goes, and with it its tag links, favorites, progress rows and notes. |
| `ApiClient.AuthorizationFor` | client/src/services/api.js:15-18 | A header is added exactly when a non-empty token is stored, and it is "Bearer " followed by the token. |
| `ApiClient.BearerRoundTrip` | client/src/services/api.js:17-17 | The server's `split(" ")[1]` of the client's header gives back the token when it has no spaces, and no token when none is stored. |
| `ApiClient.SpacedTokenIsCut` | client/src/services/api.js:17-17 | A token containing a space reaches the server cut at its first space. |
| `ApiClient.Redirect` | client/src/services/api.js:29-40 | An error goes to /login exactly for a 401, and to /pricing exactly for a 403 whose `requiresMembership` is truthy. Without a response there is no redirect. |
| `ApiClient.ServerErrorsRedirect` | client/src/services/api.js:29-40 | The server's errors are handled on the client: every 401 goes to the login page, the membership gate's 403 goes to the pricing page, and nothing else redirects. |
| `ApiClient.TokenErrorsGoToLogin` | client/src/services/api.js:29-32 | Every error `verifyToken` answers with sends the browser to the login page. |
| `ApiClient.Client.SetToken` | client/src/services/api.js:48-50 | Stores the token under "token", the key the request interceptor reads, and changes no other key. |
| `ApiClient.Client.RemoveToken` | client/src/services/api.js:52-54 | Clears "token" and nothing else. |
| `ApiClient.Client.PrepareRequest` | client/src/services/api.js:13-22 | The outgoing headers are those given, with `Authorization` set to `AuthorizationFor` the stored token when one is stored, and untouched otherwise. |
| `ApiClient.Client.Settle` | client/src/services/api.js:25-44 | A success passes through with no state change. An error is re-rejected unchanged after handling: a 401 removes the token and goes to /login, and a membership 403 goes to /pricing. |
| `ApiClient.LoggedOutSendsNoToken` | client/src/services/api.js:13-32 | On a client that has just settled a 401, the stored token is gone and the browser is on the login page; the request interceptor then sends the headers unchanged, with no `Authorization`, and `verifyToken` answers 401 "No token provided". |
| `ApiClient.SessionCarriesToken` | client/src/services/api.js:48-50 | A token stored by `setToken` is exactly what the server reads from the following requests. |
| `Db.Store.SetUser` | server/controllers/admin.controller.js:166-172 | Rewrites one user row, keeping the store invariant. |
| `Db.Store.SetMembership` | server/controllers/admin.controller.js:213-218 | Rewrites one membership row with the same owner. |
| `Db.Store.InsertMembership` | server/controllers/admin.controller.js:200-209 | Adds a membership under a fresh id for a user who has none. |
| `Db.Store.InsertTechnique` | server/controllers/admin.controller.js:432-444 | Adds a technique under a fresh id that no join row mentions. |
| `Db.Store.SetTechnique` | server/controllers/admin.controller.js:500-516 | Rewrites one technique row whose category and belt-level references exist. |
| `Db.Store.RemoveTechnique` | server/controllers/admin.controller.js:562-562 | Destroys a technique together with the rows whose non-null foreign keys reference it. Every remaining reference stays valid. |
| `Db.Store.FindOrCreateTag` | server/controllers/admin.controller.js:450-452 | Returns the one tag with that name: either the tags are unchanged, or exactly one new tag with that name is added. |
| `Db.Store.AddTag` | server/controllers/admin.controller.js:455-455 | `addTag` adds one tag to the technique's set. |
| `Db.Store.ClearTags` | server/controllers/admin.controller.js:521-521 | `setTags([])` removes the technique's join rows. |
| `Db.Store.SetNote` | server/controllers/user.controller.js:249-249 | Rewrites a note, keeping its user and technique. |
| `Db.Store.InsertNote` | server/controllers/user.controller.js:237-245 | Adds a note under a fresh id for a pair without one. |
| `Db.Store.RemoveNote` | server/controllers/user.controller.js:282-282 | Removes exactly one note. |
| `Db.Store.UserByEmail` | server/controllers/auth.controller.js:65-68 | `User.findOne({where: {email}})` finds a user exactly when the email is in use, and the user found has it. |
| `Db.Store.FavoriteIds` | server/controllers/technique.controller.js:88-95 | The favorite ids are exactly the techniques paired with the user. |
| `Db.EngagementOkAfterRemoval` | server/models/index.js:48-57 | Removing a technique's dependent favorites, progress and notes leaves every remaining one referencing a remaining technique. |
| `Db.EngagementOkAfterNote` | server/controllers/user.controller.js:237-250 | Writing a pair's existing note, or the first note of a pair, keeps one note per (user, technique). |
| `Routes.Resolve` | server/routes/technique.routes.js:7-35 | A router takes the first route, in registration order, whose verb and path match. There is no match exactly when no route matches. |
| `Routes.Bindings` | server/routes/user.routes.js:25-28 | A matched route binds each of its `:name` parameters to the path segment in that position. |
| `Routes.DispatchIn` | server/server.js:34-37 | A request reaches a router exactly when its path is under that router's prefix. |
| `Routes.DispatchUnder` | server/server.js:34-37 | The four mount prefixes are disjoint, so a path under a prefix reaches that router and no other. |
| `Routes.LiteralSegmentsWin` | server/routes/technique.routes.js:7-22 | `/filter-options` and `/favorites` are registered before `/:id`, so neither is ever read as an id, in any letter case. `/filter-options` runs no gate, and any other word reaches `getTechniqueById`. |
| `Routes.FavoritesInAnyCase` | server/routes/technique.routes.js:16-16 | Routes match case-insensitively and ignore a trailing slash, so `GET /api/techniques/Favorites/` reaches `getFavorites` behind `verifyToken` only. |
| `Routes.DispatchTokenFirst` | server/routes/technique.routes.js:10-35 | When every router's gate lists start with `verifyToken` or are empty, so does the chain of every request. |
| `Routes.MountsAreTokenGuarded` | server/routes/admin.routes.js:9-9 | In all four routers, every gated route runs `verifyToken` first. |
| `Routes.InvalidTokenIs401` | server/middleware/auth.middleware.js:5-33 | A request whose token is present but fails `verifyToken` (it does not verify, or its user is gone) and that reaches any gated route is answered with `verifyToken`'s own error, a 401, before any role or membership check. |
| `Routes.RunGates` | server/routes/admin.routes.js:9-9 | The middleware chain: only 401, 403 or 500 errors. A chain that passes `verifyToken` has a user on the request; a chain without it keeps the user, role and a truthy membership flag it was given; and when no `verifyToken` follows the first gate, passing `isAdmin` leaves the request an admin's and passing `hasMembership` leaves it an admin's or flagged a member's. |
| `Routes.Dispatch` | server/server.js:34-37 | A request reaches a router exactly when its path is under one of the four mount prefixes; otherwise no router handles it. |
| `Routes.DispatchInFirstMount` | server/server.js:34-37 | `app.use` mounts are tried in order: a path is handled by the first mount whose prefix it is under, with that mount's gates and routes. |
| `Routes.MissingTokenIs401` | server/routes/technique.routes.js:12-13 | A request without a token that reaches any gated route is answered 401 "No token provided", before any role or membership check. |
| `Routes.TokenThenAdmin` | server/routes/admin.routes.js:9-9 | `verifyToken` then `isAdmin`: a valid admin token passes, and any other valid token gets 403. |
| `Routes.AdminRouterGates` | server/routes/admin.routes.js:9-41 | Every request under /api/admin, whatever the path, passes exactly `verifyToken` then `isAdmin`. A valid non-admin token gets 403, and an admin token gets through with no membership check. |
| `Routes.AdminGates` | server/routes/admin.routes.js:9-41 | Every admin path, routed or not, meets exactly the gates [`verifyToken`, `isAdmin`]. |
| `Routes.AdminRoutesUngated` | server/routes/admin.routes.js:12-41 | No admin route lists gates of its own. |
| `Routes.NoMembershipGateElsewhere` | server/routes/user.routes.js:7-28 | No route of the auth, user or admin routers applies `hasMembership`. |
| `Routes.NoMembershipGateAt` | server/routes/auth.routes.js:7-13 | A request under the auth, user or admin prefix never meets the membership gate. |
| `Routes.MembershipGateOnlyOnTechniques` | server/routes/technique.routes.js:10-35 | Any request that meets `hasMembership` is under /api/techniques. |
| `Routes.TechniqueMembershipRoutes` | server/routes/technique.routes.js:10-35 | Exactly the listing, one technique, related techniques and progress check membership, and every gated technique route starts with `verifyToken`. |
| `Routes.FavoriteNeedsOnlyToken` | server/routes/technique.routes.js:29-29 | `POST /:id/favorite` reaches `toggleFavorite` with `id` bound. A valid token alone passes its gates, so non-members can toggle favorites. |
| `Routes.ProfileByVerb` | server/routes/user.routes.js:7-10 | `/profile` is read by GET (`getProfile`) and changed by PUT (`updateProfile`). |
| `Routes.NotesKeyedByTechnique` | server/routes/user.routes.js:25-28 | POST and DELETE on `/notes/:techniqueId` reach `updateNote` and `deleteNote` behind `verifyToken` alone, with `techniqueId` bound to the segment. |
| `Routes.UserRoutesNeedOnlyToken` | server/routes/user.routes.js:7-28 | Every routed request under /api/users meets exactly `verifyToken`. |
| `Routes.UserGates` | server/routes/user.routes.js:7-28 | Every user route lists `verifyToken` and nothing else. |
| `Routes.RegisterIsPublic` | server/routes/auth.routes.js:7-7 | `POST /api/auth/register` reaches `register` with no gate. |
| `Routes.LoginIsPublic` | server/routes/auth.routes.js:10-10 | `POST /api/auth/login` reaches `login` with no gate. |
| `Routes.CurrentUserNeedsToken` | server/routes/auth.routes.js:13-13 | `GET /api/auth/me` reaches `getCurrentUser` behind `verifyToken` only. |
| `Strings.Split` | server/middleware/auth.middleware.js:8-8 | `split(" ")` returns at least one piece, none containing the separator. |
| `Strings.JoinSplit` | server/middleware/auth.middleware.js:8-8 | Joining the pieces of a split gives back the string, so nothing is lost. |
| `Strings.Trim` | server/controllers/admin.controller.js:451-451 | `trim()` returns an infix of its input with only whitespace before and after it, and the infix neither starts nor ends with whitespace. |
| `Strings.TrimIdempotent` | server/controllers/admin.controller.js:527-527 | Trimming twice is trimming once, so a tag stored under a trimmed name is found again by it. |
| `Ordering.Filter` | server/controllers/technique.controller.js:79-80 | A `where` keeps exactly the rows it accepts, and none more often than the table has it. |
| `Ordering.SortBy` | server/controllers/admin.controller.js:234-236 | An `ORDER BY` returns a permutation of the rows, sorted by the order. |
| `Ordering.FirstPageIsTop` | server/controllers/admin.controller.js:35-46 | A first page of `limit` sorted rows is the top: every accepted row left out comes after every row on the page in the order. |
| `Ordering.Page` | server/controllers/technique.controller.js:83-84 | `LIMIT`/`OFFSET` keeps `min(limit, n - offset)` rows from position `offset` on (none past the end). |
| `Ordering.Select` | server/controllers/admin.controller.js:398-404 | `findAndCountAll` returns exactly the `LIMIT`/`OFFSET` slice of the accepted rows sorted by the order: rows of the table that the `where` accepts, sorted, as many as the page size of the matching count. |

## Left out

- Password hashing and token signing are not modelled (bcrypt, jsonwebtoken). `compare`, the new hash and `verify` are parameters. A signed token is its payload, so expiry (`expiresIn: "30d"`) is whatever `verify` decides.
- `uploadVideo` and `uploadThumbnail` (and their routes, which are in the route table) are file-system I/O and are not modelled beyond routing.
- The dashboard's `userRegistrationsByMonth` is a SQL `YEAR`/`MONTH` aggregate and is left out, as are `getFilterOptions`'s `DISTINCT` positions. `getFilterOptions` is also broken as written: `sequelize` is not imported in `technique.controller.js`. Only its route and its gate are modelled.
- `LIKE '%term%'` is plain substring containment: `%` and `_` in a search term and the column collation's case-insensitivity are not modelled.
- `UserController.IdentityClash`, `Db.Store.UserByEmail`, `Db.Store.CategoryNameTaken`, `AdminController.RenameClash` and `Db.Store.FindOrCreateTag` compare names code point by code point. MySQL's default collation compares `=` case-insensitively. So in the source, a user "Bob" renaming to "bob" clashes with himself, and a tag "Guard" reuses "guard"; the model writes "bob" and creates a second tag.
- `TechniqueController.MatchesPublic`, `TechniqueController.SamePosition` (in `IsRelated`), `UserController.ProgressFilter` and `AdminController.MatchesUser` compare the difficulty, position, status and role filters as the collation does only for ASCII letters. The collation's folding of other letters and its accent-insensitivity are not modelled, so `ListTechniques`, `PublicPage`, `RelatedPage`, `RelatedTechniques`, `UserProgress` and `ListUsers` may keep fewer rows than MySQL does for such values.
- `Strings.LexLe`: `ORDER BY title`, `username` and `name` are modelled as code-point order, not the collation's case-insensitive order.
- `Ordering.Select`: rows with equal sort keys keep their table order, which is insertion sort's tie rule. SQL leaves the order of ties unspecified, and it may differ from one `LIMIT`/`OFFSET` page to the next. So "exactly the requested page" holds up to the order of rows with equal keys.
- `AuthController.Register`: username, email and password are taken as given. A missing or `null` one is not modelled, because the user model file would say whether those columns may be NULL, and it is not part of this model. A missing username or email makes the lookup throw, and a missing password makes `bcrypt.hash` throw; both give 500.
- `AdminController.CreateCategory`: the name is taken as given, for the same reason (the category model is not part of this model). A missing name makes the lookup throw, which gives 500.
- Route matching folds only ASCII letters; the case folding of other letters by a case-insensitive regular expression is not modelled.
- `AuthController.LoginAsWritten` takes the email and password as given strings, the inputs for which its finding shows the defect.
- `parseInt` of `limit` and `offset` is taken as done: the parameters are naturals, and absent means the default.
- A string `category` or `belt` query parameter is taken as the id it names, and an unknown enum string in a body (status, type, difficulty) is not modelled: bodies carry valid enum values.
- `AdminController.NewMembership`: "one month later" is the parameter `monthLater`, because the calendar arithmetic of `setMonth` is not modelled.
- Requests are atomic and sequential. The check-then-insert races behind the uniqueness checks, and the window between `setTags([])` and re-adding tags, are not modelled.
- `server.js` bootstrap, `db.config.js`, `Technique.associate` (never invoked), the belt-level model (belt levels are a fixed set of ids that no handler writes) and all React code (`App.jsx`, `Navbar.jsx`, `AdminLayout.jsx`, `AuthContext.jsx`, `TailwindTest.jsx`) are not part of this model.
- The user, category and tag model files are not part of this model. Their columns are inferred from the controllers: usernames and emails unique (the controllers check both), and category and tag names unique (`findOne`/`findOrCreate` by name).
- `AdminController.AccountOf`: the admin listing's included membership row is not part of the account, because an account is shown without its association.
- `getUserFavorites` and `getUserNotes` (server/controllers/user.controller.js:157-222) have the same missing-import defect as `getUserProgress`. They are covered by the comment on `UserController.UserProgressAsWritten` and by their routes, not modelled as listings.
- The API client's endpoint helpers (client/src/services/api.js:57-111) are thin wrappers around `api.get`/`post`/`put`/`delete` with fixed paths and are not modelled; neither are the base URL and the `Content-Type` header.
- `ApiClient.Client.Settle`: `data.requiresMembership` is modelled as a boolean that stands for its truthiness.
- `Db.Store.RemoveTechnique`: cascading to tag links, favorites, progress and notes is an assumption. The associations declare non-null foreign keys, and the model takes the delete to remove dependent rows rather than fail.
- `createTechnique` fails as a whole when the insert is rejected. A failure after the insert (while linking tags) would leave the row behind; it is not modelled because tag links cannot fail in the model.
- `TechniqueController.ListTechniques` and `AdminController.ListAdminTechniques`: the model's `count` is the number of matching techniques. As written, `findAndCountAll` includes the many-to-many `Tag` without `distinct: true`, so the ORM counts joined rows, and a matching technique with k ≥ 2 tags adds k to the count.
- A JSON `null` for `isFeatured` or `isPublished` is not modelled: those body fields are booleans when sent. For the same reason, a non-array `tags` is not modelled.
- String lengths are code points, not JavaScript's UTF-16 code units (the 6-character password rule).

## Findings

| source | as written | input that shows it | evidently intended | confidence | as-written member | corrected member |
|---|---|---|---|---|---|---|
| server/middleware/auth.middleware.js:52-60 | `Membership` and `Op` are used but not imported, so the live lookup throws and the request is answered 500 | a non-admin token without `hasMembership` (every token from `register`) for a user with an active, unexpired membership; `MembershipGateAsWrittenRefusesMembers` | the lookup runs; the user passes and `req.hasMembership` becomes true | not executed | `AuthMiddleware.MembershipGateAsWritten` | `AuthMiddleware.MembershipGate` |
| server/controllers/auth.controller.js:11-15 | `Op` is not imported, so the duplicate check throws and every registration is answered 500 | any registration with a fresh username and email; `RegisterAsWrittenRefusesFreshUser` | refuse duplicates, otherwise create a member | not executed | `AuthController.RegisterAsWritten` | `AuthController.Register` |
| server/controllers/auth.controller.js:77-85 | `Op.gte` in the membership query throws after the password check, so a correct login is answered 500 | a registered email with its correct password | log in with `hasMembership` computed live | not executed | `AuthController.LoginAsWritten` | `AuthController.Login` |
| server/controllers/auth.controller.js:126-134 | `Op.gte` throws after the user is found, so `/me` is answered 500 for every existing user | any valid token of an existing user | reply with the user and a live `hasMembership` | not executed | `AuthController.GetCurrentUserAsWritten` | `AuthController.GetCurrentUser` |
| server/controllers/technique.controller.js:280-289 | the `include` loads `Technique` as `technique` from `UserFavorite`, but no association from `UserFavorite` to `Technique` is declared in `server/models/index.js`, so the query throws and every call is answered 500 | a user with at least one favorite; `ListFavoritesAsWrittenHidesFavorites` | the user's favorited techniques, counted and paged, each flagged `isFavorite: true` | not executed | `TechniqueController.ListFavoritesAsWritten` | `TechniqueController.ListFavorites` |
| server/controllers/user.controller.js:133-147 | the `include` names `Category` and `BeltLevel`, which the file does not import, so every call is answered 500 | a user with at least one progress row; `UserProgressAsWrittenHidesRows` | the user's rows, filtered by status, most recently viewed first | not executed | `UserController.UserProgressAsWritten` | `UserController.UserProgress` |

# Campus accounts and friend graph: a Dafny model of the `/users` router

This project models the user table and the account handlers of the campus
backend's `/users` router:

- registration
- login
- choosing a profile image among five examples
- a symmetric friend relation that adding and removing keep on both rows

The `users` table becomes a map from `username` (the primary key) to a
`User` row. Each route handler becomes a method of `UserRoutes.UserStore`
that either returns a result or a tagged `Error`, and changes the map as
the handler changes the table.

Modules:

- `Records` (`records.dfy`): the row shape of `login_search/models/user.js`,
  its defaults, and the primary-key invariant.
- `FriendGraph` (`friend_graph.dfy`): the list filtering and the two-row
  edge updates as pure functions. It also holds the consistency invariant
  ("every friend entry names a stored user who lists the owner back") and
  the lemmas about them.
- `ProfileImages` (`profile_images.dfy`): `GET /example-images` and the
  `imageId` guard of `POST /profile`.
- `UserRoutes` (`user_routes.dfy`): the handlers. Each mutating handler's
  contract states the new map in terms of the old one, the order of its
  error checks, and that it preserves consistency.

Library calls are parameters of the handlers:

- the JWT verifier is `verify: string -> Option<string>`, where `None` means
  it threw and the handler took the catch-all 500 path
- `bcrypt.compare` is `compare`
- the hash `bcrypt.hash` produced is `hashed`
- the token `jwt.sign` produced is `issued`
- `Sequelize.NOW` is `now`

A header or body field that is missing, or otherwise falsy in JavaScript,
is the empty string. `/login` is the exception: there an absent field is
`None`, because the source fails differently for it. A JSON column is `Json`:

- `Null` stands for NULL and every falsy value
- `Array` holds a list of strings
- `Other` holds any other value

What the code does in a few places where one might expect otherwise:

- An invalid or expired token reaches the catch-all 500 path
  (`ServerError`). There is no separate "unauthorized" error.
- `GET /my_friend_list_show` returns the stored list as it is. It does not
  resolve entries to names or drop entries that name no row.
- `/remove_friend` always rewrites both lists. A non-array list therefore
  becomes `[]` even when no edge was removed.
- An existing edge in `/add_friend`, or an absent one in `/remove_friend`,
  is not an error. The handler reports success and changes nothing beyond
  the normalisation above.
- No code reads or writes the `timetable` column beyond its default.

## Model

| member | source | states |
|---|---|---|
| `Records.NewRecord` | login_search/models/user.js:24-36 | a new row has `friend_list = []`, `timetable = []`, and `profileImage = "/images/default.jpg"` unless one is given; the other columns are the ones supplied |
| `Records.UsernamesUnique` | login_search/models/user.js:14-19 | with rows keyed by their primary key, two different rows never share a username |
| `FriendGraph.AsArray` | login_search/routes/users.js:145-146 | a stored list is copied as its entries when it is an array, and as `[]` otherwise |
| `FriendGraph.AddEdge` | login_search/routes/users.js:145-156 | the add transition: appends each username to the other's copied list and writes both rows; the keys stay the same, each side then lists the other, and each list grows by exactly one |
| `FriendGraph.RemoveEdge` | login_search/routes/users.js:177-186 | the remove transition: filters each username out of the other's copied list and writes both rows; the keys stay the same, and neither side lists the other afterwards |
| `FriendGraph.Without` | login_search/routes/users.js:180-181 | filtering removes every copy of the name, keeps every other entry, and never lengthens the list |
| `FriendGraph.WithoutKeepsOrder` | login_search/routes/users.js:180-181 | the filtered list is a subsequence of the original: the remaining entries keep their relative order |
| `FriendGraph.WithoutCounts` | login_search/routes/users.js:180-181 | filtering keeps the number of copies of every other name |
| `FriendGraph.WithoutAbsent` | login_search/routes/users.js:180-181 | filtering a list that lacks the name returns it unchanged |
| `FriendGraph.WithoutIdempotent` | login_search/routes/users.js:180-181 | filtering twice gives the same list as filtering once |
| `FriendGraph.ConsistentIsSymmetric` | login_search/routes/users.js:145-156 | in a consistent store, `b` is in `a`'s list exactly when `a` is in `b`'s |
| `FriendGraph.AddEdgeEffect` | login_search/routes/users.js:145-156 | after adding, the caller's list is the old list (`[]` if not an array) with the target appended, and the target's list likewise gains the caller; every other column and every other row is unchanged |
| `FriendGraph.AddEdgeConsistent` | login_search/routes/users.js:145-156 | adding an edge the caller's list lacks keeps a consistent (hence symmetric) store consistent |
| `FriendGraph.RemoveEdgeEffect` | login_search/routes/users.js:177-186 | after removal neither user lists the other; every other entry remains, with its number of copies and in its order; other columns and rows are unchanged |
| `FriendGraph.RemoveEdgeConsistent` | login_search/routes/users.js:177-186 | removing an edge keeps a consistent store consistent |
| `FriendGraph.RemoveEdgeIdempotent` | login_search/routes/users.js:177-186 | a second identical removal leaves the state the first one produced |
| `FriendGraph.RemoveAbsentEdge` | login_search/routes/users.js:177-186 | removing an edge that does not exist, between rows whose lists are arrays, changes nothing |
| `FriendGraph.AddThenRemove` | login_search/routes/users.js:145-186 | removing an edge just added restores the store exactly, when both lists were arrays without the edge |
| `ProfileImages.ImagePath` | login_search/routes/users.js:81 | the url of example image `id` is `/images/` followed by the digit of `id` and `.jpg` |
| `ProfileImages.GuardAsWritten` | login_search/routes/users.js:109-110 | the guard as written accepts exactly the present numbers from 1 to 5 inclusive, fractions included |
| `ProfileImages.ImagesFor` | login_search/routes/users.js:79-82 | mapping ids to images keeps the length and pairs each id with `/images/<id>.jpg` in order |
| `ProfileImages.ExampleImages` | login_search/routes/users.js:78-84 | the example list has five entries, ids 1 to 5 in order, each with its `/images/<id>.jpg` url |
| `ProfileImages.ImagePathInjective` | login_search/routes/users.js:81 | different example ids have different urls |
| `ProfileImages.GuardAdmitsFraction` | login_search/routes/users.js:109-110 | the guard as written accepts `imageId = 2.5`, which is no example image's id |
| `ProfileImages.ValidImageIdIsExample` | login_search/routes/users.js:109-116 | the corrected guard accepts exactly the ids the example list offers, and nothing the written guard rejects |
| `ProfileImages.SelectedImage` | login_search/routes/users.js:116 | the path stored for an accepted id is that example image's url |
| `UserRoutes.Resolve` | login_search/routes/users.js:131-136 | no token gives `NoToken`, a token the verifier rejects gives `ServerError`, and an unknown name gives `UserNotFound`, in that order; otherwise the verified username, which is a stored row |
| `UserRoutes.AllPresent` | login_search/routes/users.js:24 | registration's presence check passes exactly when none of the five fields is missing or empty |
| `UserRoutes.Matches` | login_search/routes/users.js:138 | a row satisfies the lookup `where: { name, studentId }` exactly when both columns equal the given values |
| `UserRoutes.HasMatch` | login_search/routes/users.js:138-139 | the lookup by name and student id finds a row exactly when some stored row matches both fields |
| `UserRoutes.FriendListView` | login_search/routes/users.js:205 | the listed value is the stored `friend_list` verbatim, or `[]` when it is NULL; never NULL |
| `UserRoutes.UserStore.constructor` | login_search/models/user.js:14-19 | an empty table is valid and consistent |
| `UserRoutes.UserStore.Register` | login_search/routes/users.js:21-47 | a missing field gives `MissingFields`, then a mismatched confirmation gives `PasswordMismatch`, then a taken username gives `UsernameTaken`, each with the table unchanged; otherwise exactly one row is added under the username, built from the fields with the hashed password and the default image; keys stay usernames and consistency is kept |
| `UserRoutes.UserStore.Login` | login_search/routes/users.js:50-75 | an absent username gives `ServerError` (the lookup throws); then an unknown username gives `UnknownUsername`; then an absent password gives `ServerError` (the comparison rejects); then a failed comparison with the stored hash gives `WrongPassword`; otherwise it returns the issued token with the row's username, name, student id and image |
| `UserRoutes.UserStore.GetProfile` | login_search/routes/users.js:87-101 | returns the caller's stored image, with the failures of token resolution otherwise |
| `UserRoutes.UserStore.SetProfileImage` | login_search/routes/users.js:104-124 | a missing token fails first, then an invalid `imageId`, then token resolution, each with the table unchanged; on success only the caller's `profileImage` changes, to the chosen example's url |
| `UserRoutes.UserStore.AddFriend` | login_search/routes/users.js:128-163 | checks in order: token resolution, then a row matching (name, studentId), then a self-edge, each failure leaving the table unchanged; the target found is some matching row; an existing edge leaves the table unchanged; otherwise the table becomes `AddEdge`, and consistency is preserved |
| `UserRoutes.UserStore.RemoveFriend` | login_search/routes/users.js:166-193 | no token, a rejected token, then an unknown caller or target fail with the table unchanged; otherwise the table becomes `RemoveEdge` and the target's name is returned; consistency is preserved |
| `UserRoutes.UserStore.ListFriends` | login_search/routes/users.js:196-207 | returns the caller's `friend_list` as the listing shows it, with the failures of token resolution otherwise |
| `UserRoutes.AddFriendThenList` | login_search/routes/users.js:145-156 | after a successful add, each side's listed friends contain the other |

## Findings

| source | as written | input that shows it | evidently intended | confidence | as-written member | corrected member |
|---|---|---|---|---|---|---|
| login_search/routes/users.js:109-116 | `!imageId \|\| imageId < 1 \|\| imageId > 5` rejects only falsy or out-of-range numbers | `imageId = 2.5` passes and stores `/images/2.5.jpg`, which no example image has | `imageId` is one of the whole numbers 1 to 5 offered by `/example-images` | medium, not executed | `ProfileImages.GuardAdmitsFraction` | `ProfileImages.ValidImageIdIsExample` |

`UserRoutes.UserStore.SetProfileImage` uses the corrected guard `ProfileImages.ValidImageId`.

## Left out

- `GET /` (login_search/routes/users.js:9-18) lists every row. It only passes the table through, so it is not modelled.
- The `timetable` column: no handler reads or writes it, so it is kept only as a value that every handler leaves alone. No code parses course meeting times or checks them for conflicts.
- Library calls: bcrypt hashing and comparison, and JWT signing and verification (with their secret and one-hour expiry), are parameters. Their internals are not modelled.
- The two writes of `/add_friend` and `/remove_friend` (`Promise.all`) are modelled as one atomic update. A failure between them, concurrent requests and store failures are not modelled.
- Lookups compare usernames, names and student ids exactly. The table's `utf8_general_ci` collation, which compares them without regard to case and trailing spaces, is not modelled.
- The `STRING(20)` and `STRING(255)` length limits of the columns are not modelled.
- Outside `/login`, an absent body field is modelled as the empty string. Sequelize throws on an `undefined` value in a `where` clause, which gives a 500 in the source. This happens for a friend removal without a username and for a friend lookup without a name. The model treats that value as a name no row has.
- `UserRoutes.UserStore.Register`: body fields are assumed to be strings. A non-string JSON password passes the checks of lines 24-31 but makes `bcrypt.hash` reject, giving a 500. The model does not capture this.
- `UserRoutes.UserStore.Login`: body fields are assumed to be strings or absent. A non-string password makes `bcrypt.compare` reject, giving a 500. The model does not capture this.
- `UserRoutes.UserStore.SetProfileImage`: `imageId` is modelled as an optional JSON number. A form-encoded string `imageId`, which JavaScript's comparisons coerce, is not modelled.
- Entries of a stored `friend_list` that are not strings are not modelled.
- HTTP status codes and the response messages are not modelled; only the kind of error is kept.

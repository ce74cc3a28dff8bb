/** The `users` table: the shape of one row, its primary key and the
    defaults a newly created row receives. */
module Records {

  datatype Option<+T> = None | Some(value: T)

  /** The value of a JSON column. `Null` stands for SQL NULL and for every
      JSON value that JavaScript treats as false; `Array` is a JSON array of
      strings; `Other` is any other JSON value, kept by its text. */
  datatype Json = Null | Array(items: seq<string>) | Other(text: string)

  /** The image path a new row receives when none is given. */
  const DefaultProfileImage: string := "/images/default.jpg"

  /** One row of the `users` table. `password` holds the bcrypt hash and
      `createdAt` the creation instant; `profileImage` may be NULL. */
  datatype User = User(
    name: string,
    studentId: string,
    username: string,
    password: string,
    friendList: Json,
    profileImage: Option<string>,
    timetable: Json,
    createdAt: int)

  /** A row as `User.create` builds it from the given columns: the JSON
      columns start as empty arrays and the image falls back to the default
      when the caller gives none. */
  function NewRecord(name: string, studentId: string, username: string, password: string,
                     profileImage: Option<string>, now: int): (u: User)
    ensures u.friendList == Array([]) && u.timetable == Array([])
    ensures profileImage.None? ==> u.profileImage == Some(DefaultProfileImage)
    ensures profileImage.Some? ==> u.profileImage == profileImage
    ensures u.name == name && u.studentId == studentId && u.username == username
    ensures u.password == password && u.createdAt == now
  {
    User(name, studentId, username, password, Array([]),
         if profileImage.Some? then profileImage else Some(DefaultProfileImage),
         Array([]), now)
  }

  /** `username` is the primary key: the store is a map from it to the row. */
  ghost predicate KeyedByUsername(users: map<string, User>)
  {
    forall k :: k in users ==> users[k].username == k
  }

  /** The fields registration insists on are present. */
  predicate Registered(u: User)
  {
    u.name != "" && u.studentId != "" && u.username != ""
  }

  /** Because rows are keyed by username, no two rows share one. This only
      unfolds `KeyedByUsername`; the fact with content is that every handler
      that changes the table keeps it keyed (`ensures Valid()` of
      `UserRoutes.UserStore.Register` and the other mutators). */
  lemma UsernamesUnique(users: map<string, User>, a: string, b: string)
    requires KeyedByUsername(users)
    requires a in users && b in users && a != b
    ensures users[a].username != users[b].username
  {
  }
}

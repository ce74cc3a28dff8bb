/** The handlers of the `/users` router as transitions on the `users` table,
    kept as a map from username to row.

    Calls into libraries are parameters: `verify` is the token verifier
    (`None` when it throws), `compare` the password check, `hashed` the hash
    computed for a new password, `issued` the token signed at login and
    `now` the creation instant. A header or body field that is missing, or
    otherwise falsy, is the empty string, except in `Login`, where an
    absent field is `None`. */
module UserRoutes {
  import opened Records
  import opened FriendGraph
  import opened ProfileImages

  /** What a handler reports instead of its result. `ServerError` is the
      catch-all 500 path. */
  datatype Error =
    | MissingFields
    | PasswordMismatch
    | UsernameTaken
    | UnknownUsername
    | WrongPassword
    | NoToken
    | InvalidImageId
    | UserNotFound
    | TargetNotFound
    | SelfFriend
    | ServerError

  datatype Result<+T> = Ok(value: T) | Err(error: Error)

  /** What a successful login returns. */
  datatype Session = Session(token: string, username: string, name: string,
                             studentId: string, profileImage: Option<string>)

  /** What `/add_friend` reports, with the username of the row the lookup
      found. */
  datatype FriendOutcome =
    | Befriended(username: string, name: string)
    | AlreadyFriends(username: string)

  /** The caller a token names: no token, a token the verifier rejects, and
      a name with no row are the three ways to fail, in that order. */
  function Resolve(users: map<string, User>, token: string, verify: string -> Option<string>): (r: Result<string>)
    ensures r == Err(NoToken) <==> token == ""
    ensures r == Err(ServerError) <==> token != "" && verify(token).None?
    ensures r == Err(UserNotFound) <==> token != "" && verify(token).Some? && verify(token).value !in users
    ensures r.Ok? <==> token != "" && verify(token).Some? && verify(token).value in users
    ensures r.Ok? ==> r.value == verify(token).value && r.value in users
  {
    if token == "" then Err(NoToken)
    else match verify(token)
      case None => Err(ServerError)
      case Some(username) => if username in users then Ok(username) else Err(UserNotFound)
  }

  /** Every field is given: none is missing or empty. */
  predicate AllPresent(name: string, studentId: string, username: string, password: string,
                       confirmPassword: string): (ok: bool)
    ensures ok <==> "" !in [name, studentId, username, password, confirmPassword]
  {
    name != "" && studentId != "" && username != "" && password != "" && confirmPassword != ""
  }

  /** The row satisfies `where: { name, studentId }`. */
  predicate Matches(u: User, name: string, studentId: string): (ok: bool)
    ensures ok <==> (u.name, u.studentId) == (name, studentId)
  {
    u.name == name && u.studentId == studentId
  }

  /** Some row has this name and student id. */
  predicate HasMatch(users: map<string, User>, name: string, studentId: string): (ok: bool)
    ensures ok <==> exists u :: u in users.Values && Matches(u, name, studentId)
  {
    exists k :: k in users && Matches(users[k], name, studentId)
  }

  /** `user.friend_list || []`. */
  function FriendListView(j: Json): (r: Json)
    ensures r != Null
    ensures r == j || (j == Null && r == Array([]))
  {
    if j.Null? then Array([]) else j
  }

  class UserStore {
    var users: map<string, User>

    /** Rows are keyed by username, and each row has the fields
        registration insists on. */
    ghost predicate Valid()
      reads this
    {
      KeyedByUsername(users) && forall k :: k in users ==> Registered(users[k])
    }

    constructor ()
      ensures Valid() && users == map[] && Consistent(users)
    {
      users := map[];
    }

    /** `POST /register`. */
    method Register(name: string, studentId: string, username: string, password: string,
                    confirmPassword: string, hashed: string, now: int) returns (r: Result<User>)
      requires Valid()
      modifies this
      ensures Valid()
      ensures r.Err? ==> users == old(users)
      ensures !AllPresent(name, studentId, username, password, confirmPassword) ==> r == Err(MissingFields)
      ensures AllPresent(name, studentId, username, password, confirmPassword) && password != confirmPassword
        ==> r == Err(PasswordMismatch)
      ensures AllPresent(name, studentId, username, password, confirmPassword) && password == confirmPassword
        && username in old(users)
        ==> r == Err(UsernameTaken)
      ensures r.Ok? <==> (AllPresent(name, studentId, username, password, confirmPassword)
                          && password == confirmPassword && username !in old(users))
      ensures r.Ok? ==> r.value == NewRecord(name, studentId, username, hashed, Some(DefaultProfileImage), now)
      ensures r.Ok? ==> users == old(users)[username := r.value]
      ensures Consistent(old(users)) ==> Consistent(users)
    {
      if !AllPresent(name, studentId, username, password, confirmPassword) {
        return Err(MissingFields);
      }
      if password != confirmPassword {
        return Err(PasswordMismatch);
      }
      if username in users {
        return Err(UsernameTaken);
      }
      var user := NewRecord(name, studentId, username, hashed, Some(DefaultProfileImage), now);
      users := users[username := user];
      r := Ok(user);
    }

    /** `POST /login`. `username` and `password` are the body's fields, `None`
        when absent: Sequelize throws on an `undefined` lookup value and
        `bcrypt.compare` rejects an `undefined` password, so either one
        reaches the catch-all 500 path, each at the step that uses it. */
    method Login(username: Option<string>, password: Option<string>, compare: (string, string) -> bool,
                 issued: string) returns (r: Result<Session>)
      requires Valid()
      ensures username.None? ==> r == Err(ServerError)
      ensures username.Some? && username.value !in users ==> r == Err(UnknownUsername)
      ensures username.Some? && username.value in users && password.None? ==> r == Err(ServerError)
      ensures username.Some? && username.value in users && password.Some?
        && !compare(password.value, users[username.value].password)
        ==> r == Err(WrongPassword)
      ensures r.Ok? <==> (username.Some? && username.value in users && password.Some?
                          && compare(password.value, users[username.value].password))
      ensures r.Ok? ==> var u := users[username.value];
        r.value == Session(issued, u.username, u.name, u.studentId, u.profileImage)
    {
      if username.None? {
        return Err(ServerError);
      }
      if username.value !in users {
        return Err(UnknownUsername);
      }
      var user := users[username.value];
      if password.None? {
        return Err(ServerError);
      }
      if !compare(password.value, user.password) {
        return Err(WrongPassword);
      }
      r := Ok(Session(issued, user.username, user.name, user.studentId, user.profileImage));
    }

    /** `GET /profile`: the caller's stored image path. */
    method GetProfile(token: string, verify: string -> Option<string>) returns (r: Result<Option<string>>)
      requires Valid()
      ensures Resolve(users, token, verify).Err? ==> r == Err(Resolve(users, token, verify).error)
      ensures r.Ok? <==> Resolve(users, token, verify).Ok?
      ensures r.Ok? ==> r.value == users[verify(token).value].profileImage
    {
      var caller := Resolve(users, token, verify);
      if caller.Err? {
        return Err(caller.error);
      }
      r := Ok(users[caller.value].profileImage);
    }

    /** `POST /profile`: the caller picks one of the example images. */
    method SetProfileImage(token: string, imageId: Option<real>, verify: string -> Option<string>)
      returns (r: Result<string>)
      requires Valid()
      modifies this
      ensures Valid()
      ensures r.Err? ==> users == old(users)
      ensures token == "" ==> r == Err(NoToken)
      ensures token != "" && !ValidImageId(imageId) ==> r == Err(InvalidImageId)
      ensures token != "" && ValidImageId(imageId) && Resolve(old(users), token, verify).Err?
        ==> r == Err(Resolve(old(users), token, verify).error)
      ensures r.Ok? <==> ValidImageId(imageId) && Resolve(old(users), token, verify).Ok?
      ensures r.Ok? ==> var caller := verify(token).value;
        && r.value == SelectedImage(imageId)
        && users == old(users)[caller := old(users)[caller].(profileImage := Some(r.value))]
      ensures Consistent(old(users)) ==> Consistent(users)
    {
      if token == "" {
        return Err(NoToken);
      }
      if !ValidImageId(imageId) {
        return Err(InvalidImageId);
      }
      var caller := Resolve(users, token, verify);
      if caller.Err? {
        return Err(caller.error);
      }
      var user := users[caller.value];
      user := user.(profileImage := Some(SelectedImage(imageId)));
      users := users[caller.value := user];
      r := Ok(user.profileImage.value);
      assert forall k :: k in users ==> Friends(users[k]) == Friends(old(users)[k]);
    }

    /** `POST /add_friend`: befriend the row found by name and student id. */
    method AddFriend(token: string, name: string, studentId: string, verify: string -> Option<string>)
      returns (r: Result<FriendOutcome>)
      requires Valid()
      modifies this
      ensures Valid()
      ensures r.Err? ==> users == old(users)
      ensures Resolve(old(users), token, verify).Err? ==> r == Err(Resolve(old(users), token, verify).error)
      ensures Resolve(old(users), token, verify).Ok? && !HasMatch(old(users), name, studentId)
        ==> r == Err(TargetNotFound)
      ensures r == Err(SelfFriend) ==> Matches(old(users)[verify(token).value], name, studentId)
      ensures Resolve(old(users), token, verify).Ok? && HasMatch(old(users), name, studentId)
        ==> r.Ok? || r == Err(SelfFriend)
      ensures r.Ok? ==> var caller, target := verify(token).value, r.value.username;
        && Resolve(old(users), token, verify) == Ok(caller)
        && target in old(users) && Matches(old(users)[target], name, studentId)
        && target != caller
        && (target in Friends(old(users)[caller]) <==> r.value.AlreadyFriends?)
        && (r.value.AlreadyFriends? ==> users == old(users))
        && (r.value.Befriended? ==> (r.value.name == old(users)[target].name
                                     && users == AddEdge(old(users), caller, target)))
      ensures Consistent(old(users)) ==> Consistent(users)
    {
      var caller := Resolve(users, token, verify);
      if caller.Err? {
        return Err(caller.error);
      }
      var a := caller.value;
      if !HasMatch(users, name, studentId) {
        return Err(TargetNotFound);
      }
      var b :| b in users && Matches(users[b], name, studentId);
      var userA, userB := users[a], users[b];
      if userA.username == userB.username {
        return Err(SelfFriend);
      }
      var friendsA := AsArray(userA.friendList);
      var friendsB := AsArray(userB.friendList);
      if b in friendsA {
        return Ok(AlreadyFriends(b));
      }
      friendsA := friendsA + [b];
      friendsB := friendsB + [a];
      users := users[a := userA.(friendList := Array(friendsA))];
      users := users[b := userB.(friendList := Array(friendsB))];
      r := Ok(Befriended(b, userB.name));
      AddEdgeEffect(old(users), a, b);
      if Consistent(old(users)) {
        AddEdgeConsistent(old(users), a, b);
      }
    }

    /** `POST /remove_friend`: drop the edge to the row with `friendUsername`. */
    method RemoveFriend(token: string, friendUsername: string, verify: string -> Option<string>)
      returns (r: Result<string>)
      requires Valid()
      modifies this
      ensures Valid()
      ensures r.Err? ==> users == old(users)
      ensures token == "" ==> r == Err(NoToken)
      ensures token != "" && verify(token).None? ==> r == Err(ServerError)
      ensures token != "" && verify(token).Some? && (verify(token).value !in old(users) || friendUsername !in old(users))
        ==> r == Err(UserNotFound)
      ensures r.Ok? <==> Resolve(old(users), token, verify).Ok? && friendUsername in old(users)
      ensures r.Ok? ==> (r.value == old(users)[friendUsername].name
                         && users == RemoveEdge(old(users), verify(token).value, friendUsername))
      ensures Consistent(old(users)) ==> Consistent(users)
    {
      if token == "" {
        return Err(NoToken);
      }
      var payload := verify(token);
      if payload.None? {
        return Err(ServerError);
      }
      var a, b := payload.value, friendUsername;
      if a !in users || b !in users {
        return Err(UserNotFound);
      }
      var userA, userB := users[a], users[b];
      var friendsA := AsArray(userA.friendList);
      var friendsB := AsArray(userB.friendList);
      friendsA := Without(friendsA, userB.username);
      friendsB := Without(friendsB, userA.username);
      users := users[a := userA.(friendList := Array(friendsA))];
      users := users[b := userB.(friendList := Array(friendsB))];
      r := Ok(userB.name);
      RemoveEdgeEffect(old(users), a, b);
      if Consistent(old(users)) {
        RemoveEdgeConsistent(old(users), a, b);
      }
    }

    /** `GET /my_friend_list_show`: the caller's stored list, or `[]`. */
    method ListFriends(token: string, verify: string -> Option<string>) returns (r: Result<Json>)
      requires Valid()
      ensures Resolve(users, token, verify).Err? ==> r == Err(Resolve(users, token, verify).error)
      ensures r.Ok? <==> Resolve(users, token, verify).Ok?
      ensures r.Ok? ==> r.value == FriendListView(users[verify(token).value].friendList)
    {
      var caller := Resolve(users, token, verify);
      if caller.Err? {
        return Err(caller.error);
      }
      r := Ok(FriendListView(users[caller.value].friendList));
    }
  }

  /** After a successful `/add_friend` each side's list, as the listing
      handler shows it, holds the other. */
  lemma AddFriendThenList(users: map<string, User>, a: string, b: string)
    requires a in users && b in users && a != b
    ensures var r := AddEdge(users, a, b);
      && b in AsArray(FriendListView(r[a].friendList))
      && a in AsArray(FriendListView(r[b].friendList))
  {
    AddEdgeEffect(users, a, b);
  }
}

/** The five request handlers over an in-memory stand-in for the document
    store: three collections (users, posts, comments) held as sequences.
    Each handler answers with an abstract response. */
module Server {
  import opened Types
  import opened Denormalize
  import opened Router

  /** What a handler writes back: the status, the `{"error": ...}` message
      if any, the Content-Type and Location headers if set, and the user
      document sent as body if any. */
  datatype Response = Response(
    status: nat,
    error: Option<string>,
    contentType: Option<string>,
    location: Option<string>,
    user: Option<User>)

  const JsonContentType: string := "application/json"

  /** `res.writeHead(status); res.end()` */
  function EmptyResponse(status: nat): Response {
    Response(status, None, None, None, None)
  }

  /** `res.writeHead(status); res.end(JSON.stringify({ error: message }))` */
  function ErrorResponse(status: nat, message: string): Response {
    Response(status, Some(message), None, None, None)
  }

  /** A JSON user document with its Content-Type header. */
  function DocumentResponse(status: nat, u: User, location: Option<string>): Response {
    Response(status, None, Some(JsonContentType), location, Some(u))
  }

  const InternalError: Response := ErrorResponse(500, "Internal Server Error")
  const UserNotFound: Response := ErrorResponse(404, "User not found")
  const UserExists: Response := ErrorResponse(409, "User already exists")
  const InvalidBody: Response := ErrorResponse(400, "Invalid request body")
  const RouteNotFound: Response := ErrorResponse(404, "Not Found")

  /** The three arrays the remote source returns. */
  datatype RemoteData = RemoteData(users: seq<User>, posts: seq<Post>, comments: seq<Comment>)

  /** Which database call of a handler throws, if any. A handler's calls are
      numbered from 0 in the order it makes them; call 0 obtains the
      connection. */
  datatype Fault = NoFault | FailAt(call: nat)

  predicate Throws(fault: Fault, call: nat) {
    fault == FailAt(call)
  }

  /** Calls 0 to `call` all succeed. */
  predicate Completes(fault: Fault, call: nat) {
    !(fault.FailAt? && fault.call <= call)
  }

  /** j is the position of the first user with this id. */
  ghost predicate IsFirstWithId(users: seq<User>, id: int, j: nat) {
    && j < |users|
    && users[j].id == id
    && forall k :: 0 <= k < j ==> users[k].id != id
  }

  /** The position `findOne({ id })` and `deleteOne({ id })` act on: that of
      the first user with this id, if there is one. */
  function FirstIndexOf(users: seq<User>, id: int): (r: Option<nat>)
    ensures r.Some? ==> IsFirstWithId(users, id, r.value)
    ensures r.None? ==> forall k :: 0 <= k < |users| ==> users[k].id != id
  {
    if users == [] then None
    else if users[0].id == id then Some(0)
    else match FirstIndexOf(users[1..], id)
      case None => None
      case Some(j) => Some(j + 1)
  }

  /** `users.findOne({ id })`: the first stored user with this id. */
  function FindOne(users: seq<User>, id: int): (r: Option<User>)
    ensures r.Some? <==> exists k :: 0 <= k < |users| && users[k].id == id
    ensures r.Some? ==> exists j: nat :: IsFirstWithId(users, id, j) && r.value == users[j]
  {
    match FirstIndexOf(users, id)
    case None => None
    case Some(j) => Some(users[j])
  }

  /** `users.deleteOne({ id })`: the remaining users and the deletedCount. */
  function DeleteOne(users: seq<User>, id: int): (r: (seq<User>, nat))
    ensures r.1 == 0 <==> FindOne(users, id).None?
    ensures r.1 == 0 ==> r.0 == users
    ensures r.1 == 1 ==> exists j: nat :: IsFirstWithId(users, id, j) && r.0 == users[..j] + users[j + 1..]
    ensures r.1 <= 1
  {
    match FirstIndexOf(users, id)
    case None => (users, 0)
    case Some(j) => (users[..j] + users[j + 1..], 1)
  }

  /** No two stored users share an id: what the PUT handler's conflict check
      keeps up. */
  ghost predicate UniqueIds(users: seq<User>) {
    forall a, b :: 0 <= a < b < |users| ==> users[a].id != users[b].id
  }

  /** Appending a user whose id was absent makes findOne return it. */
  lemma {:induction false} FindAfterInsert(users: seq<User>, u: User)
    requires FindOne(users, u.id).None?
    ensures FindOne(users + [u], u.id) == Some(u)
  {
    if users == [] {
      assert users + [u] == [u];
    } else {
      assert (users + [u])[1..] == users[1..] + [u];
      assert FindOne(users[1..], u.id).None?;
      FindAfterInsert(users[1..], u);
    }
  }

  /** Appending a user leaves findOne of every other id as it was. */
  lemma {:induction false} FindOtherAfterInsert(users: seq<User>, u: User, id: int)
    requires id != u.id
    ensures FindOne(users + [u], id) == FindOne(users, id)
  {
    if users == [] {
      assert users + [u] == [u];
    } else {
      assert (users + [u])[1..] == users[1..] + [u];
      FindOtherAfterInsert(users[1..], u, id);
    }
  }

  /** The conflict check keeps ids unique. */
  lemma InsertKeepsIdsUnique(users: seq<User>, u: User)
    requires UniqueIds(users) && FindOne(users, u.id).None?
    ensures UniqueIds(users + [u])
  {
    var s := users + [u];
    forall a, b | 0 <= a < b < |s| ensures s[a].id != s[b].id {
      if b == |users| {
        assert s[a] == users[a];
      } else {
        assert s[a] == users[a] && s[b] == users[b];
      }
    }
  }

  /** With unique ids, once deleteOne has removed a user, findOne no longer
      finds that id; deleting twice is therefore answered "not found". */
  lemma FindAfterDelete(users: seq<User>, id: int)
    requires UniqueIds(users)
    ensures FindOne(DeleteOne(users, id).0, id).None?
    ensures UniqueIds(DeleteOne(users, id).0)
  {
    var (rest, n) := DeleteOne(users, id);
    if n == 1 {
      var j: nat :| IsFirstWithId(users, id, j) && rest == users[..j] + users[j + 1..];
      assert forall k :: 0 <= k < |rest| ==> rest[k] == if k < j then users[k] else users[k + 1];
      forall k | 0 <= k < |rest| ensures rest[k].id != id {
        if k >= j { assert users[k + 1].id != users[j].id; }
      }
      forall a, b | 0 <= a < b < |rest| ensures rest[a].id != rest[b].id {
        var a', b' := if a < j then a else a + 1, if b < j then b else b + 1;
        assert rest[a] == users[a'] && rest[b] == users[b'];
      }
    }
  }

  /** The Location header of a created user routes back to that user when
      its id is non-negative; a negative id is written with a minus sign,
      which the by-id pattern rejects, so that Location is "Not Found". */
  lemma LocationRoutesBack(u: User)
    ensures u.id >= 0 ==> RouteOf("GET", UsersPrefix + IntToString(u.id)) == GetUser(u.id)
    ensures u.id >= 0 ==> RouteOf("DELETE", UsersPrefix + IntToString(u.id)) == DeleteUser(u.id)
    ensures u.id < 0 ==> RouteOf("GET", UsersPrefix + IntToString(u.id)) == NotFound
    ensures u.id < 0 ==> RouteOf("DELETE", UsersPrefix + IntToString(u.id)) == NotFound
  {
    var p := UsersPrefix + IntToString(u.id);
    if u.id >= 0 {
      RouteReachesEveryId(u.id);
    } else {
      assert p[|UsersPrefix|] == '-';
      assert !IsDigit(p[|UsersPrefix|..][0]);
    }
  }

  /** The document store, reduced to its three collections. */
  class Store {
    var users: seq<User>
    var posts: seq<Post>
    var comments: seq<Comment>

    constructor (users: seq<User>, posts: seq<Post>, comments: seq<Comment>)
      ensures this.users == users && this.posts == posts && this.comments == comments
    {
      this.users := users;
      this.posts := posts;
      this.comments := comments;
    }

    /** The outcome of GET /load. Calls: 0 connect, then the three fetches
        (`remote` is None when one fails), 1 to 3 deleteMany on users, posts
        and comments, 4 insertMany into users. The steps are not atomic: a
        failure leaves the collections cleared so far cleared. */
    twostate predicate LoadDone(remote: Option<RemoteData>, fault: Fault, resp: Response)
      reads this
    {
      && resp == (if remote.Some? && Completes(fault, 4) then EmptyResponse(200) else InternalError)
      && users ==
        (if remote.Some? && Completes(fault, 4) then Denormalized(remote.value.users, remote.value.posts, remote.value.comments)
         else if remote.Some? && Completes(fault, 1) then []
         else old(users))
      && posts == (if remote.Some? && Completes(fault, 2) then [] else old(posts))
      && comments == (if remote.Some? && Completes(fault, 3) then [] else old(comments))
    }

    /** The answer of GET /users/{id}. Calls: 0 connect, 1 findOne. */
    predicate GetAnswer(id: int, fault: Fault, resp: Response)
      reads this
    {
      && (!Completes(fault, 1) ==> resp == InternalError)
      && (Completes(fault, 1) && FindOne(users, id).None? ==> resp == UserNotFound)
      && (Completes(fault, 1) && FindOne(users, id).Some? ==>
            resp == DocumentResponse(200, FindOne(users, id).value, None))
    }

    /** The outcome of DELETE /users. Calls: 0 connect, 1 deleteMany. */
    twostate predicate DeleteAllDone(fault: Fault, resp: Response)
      reads this
    {
      && resp == (if Completes(fault, 1) then EmptyResponse(200) else InternalError)
      && users == (if Completes(fault, 1) then [] else old(users))
      && posts == old(posts) && comments == old(comments)
    }

    /** The outcome of DELETE /users/{id}. Calls: 0 connect, 1 deleteOne. */
    twostate predicate DeleteUserDone(id: int, fault: Fault, resp: Response)
      reads this
    {
      && (!Completes(fault, 1) ==> resp == InternalError && users == old(users))
      && (Completes(fault, 1) && FindOne(old(users), id).None? ==>
            resp == UserNotFound && users == old(users))
      && (Completes(fault, 1) && FindOne(old(users), id).Some? ==>
            resp == EmptyResponse(200) &&
            exists j: nat :: IsFirstWithId(old(users), id, j) && users == old(users)[..j] + old(users)[j + 1..])
      && posts == old(posts) && comments == old(comments)
    }

    /** The outcome of PUT /users. `payload` is the parsed body, None when it
        does not parse. Calls: 0 connect, 1 findOne, 2 insertOne. Every
        failure after the body is read, storage failures included, is
        answered 400. */
    twostate predicate PutDone(payload: Option<User>, fault: Fault, resp: Response)
      reads this
    {
      && (payload.None? || !Completes(fault, 1) ==> resp == InvalidBody && users == old(users))
      && (payload.Some? && Completes(fault, 1) && FindOne(old(users), payload.value.id).Some? ==>
            resp == UserExists && users == old(users))
      && (payload.Some? && Completes(fault, 1) && FindOne(old(users), payload.value.id).None? && Throws(fault, 2) ==>
            resp == InvalidBody && users == old(users))
      && (payload.Some? && Completes(fault, 2) && FindOne(old(users), payload.value.id).None? ==>
            resp == DocumentResponse(201, payload.value, Some(UsersPrefix + IntToString(payload.value.id))) &&
            users == old(users) + [payload.value])
      && posts == old(posts) && comments == old(comments)
    }

    /** GET /load */
    method Load(remote: Option<RemoteData>, fault: Fault) returns (resp: Response)
      modifies this
      ensures LoadDone(remote, fault, resp)
    {
      if Throws(fault, 0) || remote.None? {
        return InternalError;
      }
      var data := remote.value;
      var processed := Denormalized(data.users, data.posts, data.comments);
      if Throws(fault, 1) {
        return InternalError;
      }
      users := [];
      if Throws(fault, 2) {
        return InternalError;
      }
      posts := [];
      if Throws(fault, 3) {
        return InternalError;
      }
      comments := [];
      if Throws(fault, 4) {
        return InternalError;
      }
      users := users + processed;
      resp := EmptyResponse(200);
    }

    /** GET /users/{id} */
    method GetUser(id: int, fault: Fault) returns (resp: Response)
      ensures GetAnswer(id, fault, resp)
    {
      if Throws(fault, 0) || Throws(fault, 1) {
        return InternalError;
      }
      var user := FindOne(users, id);
      if user.None? {
        return UserNotFound;
      }
      resp := DocumentResponse(200, user.value, None);
    }

    /** DELETE /users */
    method DeleteAllUsers(fault: Fault) returns (resp: Response)
      modifies this
      ensures DeleteAllDone(fault, resp)
    {
      if Throws(fault, 0) || Throws(fault, 1) {
        return InternalError;
      }
      users := [];
      resp := EmptyResponse(200);
    }

    /** DELETE /users/{id} */
    method DeleteUser(id: int, fault: Fault) returns (resp: Response)
      modifies this
      ensures DeleteUserDone(id, fault, resp)
    {
      if Throws(fault, 0) || Throws(fault, 1) {
        return InternalError;
      }
      var (rest, deletedCount) := DeleteOne(users, id);
      users := rest;
      if deletedCount == 0 {
        return UserNotFound;
      }
      resp := EmptyResponse(200);
    }

    /** PUT /users */
    method PutUser(payload: Option<User>, fault: Fault) returns (resp: Response)
      modifies this
      ensures PutDone(payload, fault, resp)
    {
      if payload.None? {
        return InvalidBody;
      }
      var userData := payload.value;
      if Throws(fault, 0) || Throws(fault, 1) {
        return InvalidBody;
      }
      var existing := FindOne(users, userData.id);
      if existing.Some? {
        return UserExists;
      }
      if Throws(fault, 2) {
        return InvalidBody;
      }
      users := users + [userData];
      resp := DocumentResponse(201, userData, Some(UsersPrefix + IntToString(userData.id)));
    }

    /** The request listener: route, then run the handler the route names,
        with the decoded id for the by-id routes. `payload` is the parsed
        PUT body, `remote` what the load fetches. */
    method Serve(verb: string, path: string, payload: Option<User>, remote: Option<RemoteData>, fault: Fault)
      returns (resp: Response)
      modifies this
      ensures RouteOf(verb, path) == Route.Load ==> LoadDone(remote, fault, resp)
      ensures RouteOf(verb, path) == Route.DeleteAllUsers ==> DeleteAllDone(fault, resp)
      ensures RouteOf(verb, path).DeleteUser? ==> DeleteUserDone(RouteOf(verb, path).id, fault, resp)
      ensures RouteOf(verb, path).GetUser? ==> unchanged(this) && GetAnswer(RouteOf(verb, path).id, fault, resp)
      ensures RouteOf(verb, path) == Route.PutUser ==> PutDone(payload, fault, resp)
      ensures RouteOf(verb, path) == NotFound ==> resp == RouteNotFound && unchanged(this)
      ensures resp.status in {200, 201, 400, 404, 409, 500}
    {
      match RouteOf(verb, path)
      case Load => resp := Load(remote, fault);
      case DeleteAllUsers => resp := DeleteAllUsers(fault);
      case DeleteUser(id) => resp := DeleteUser(id, fault);
      case GetUser(id) => resp := GetUser(id, fault);
      case PutUser => resp := PutUser(payload, fault);
      case NotFound => resp := RouteNotFound;
    }
  }

  /** A second successful load with the same remote data leaves the store as
      the first left it. */
  method ReloadIsIdempotent(s: Store, data: RemoteData) returns (first: Response, second: Response)
    modifies s
    ensures first == second == EmptyResponse(200)
    ensures s.users == Denormalized(data.users, data.posts, data.comments)
    ensures s.posts == [] && s.comments == []
  {
    first := s.Load(Some(data), NoFault);
    ghost var afterFirst := (s.users, s.posts, s.comments);
    second := s.Load(Some(data), NoFault);
    assert (s.users, s.posts, s.comments) == afterFirst;
  }

  /** A successful PUT followed by a GET of its id answers with the
      submitted document. */
  method CreateThenGet(s: Store, u: User) returns (created: Response, fetched: Response)
    modifies s
    ensures FindOne(old(s.users), u.id).None? ==>
      created.status == 201 && fetched == DocumentResponse(200, u, None)
    ensures FindOne(old(s.users), u.id).Some? ==>
      created == UserExists && s.users == old(s.users)
  {
    created := s.PutUser(Some(u), NoFault);
    if created.status == 201 {
      FindAfterInsert(old(s.users), u);
    }
    fetched := s.GetUser(u.id, NoFault);
  }
}

# Users/posts/comments mirror service — Dafny model

The service mirrors a demo data set (users, posts, comments) fetched from a
remote read-only API into a document store and serves CRUD-style endpoints
over the stored users. This project models its core, `src/server.ts`:

- **Load denormalisation** (`denormalize.dfy`, module `Denormalize`): the
  first ten fetched users, each with the posts whose `userId` is its `id`
  embedded in source order, each post with the comments whose `postId` is
  its `id` embedded in source order. A missing `userId` or `postId` never
  matches.
- **Router** (`router.dfy`, module `Router`): the if/else chain that sends
  a (method, path) pair to one of five handlers or answers 404
  "Not Found", with the `^/users/\d+$` test, `path.split('/')[2]` and the
  decimal decoding of the id.
- **Handlers** (`server.dfy`, module `Server`): a `Store` class holding the
  `users`, `posts` and `comments` collections as sequences, and one method
  per handler (load, get by id, delete all, delete by id, create) that
  changes the collections step by step and returns an abstract `Response`
  (status, error message, Content-Type, Location, document body).
- **Record shapes** (`types.dfy`, module `Types`): `User`, `Post`,
  `Comment`, with `Address`, `Company` and `Geo` carried along opaquely, and
  the optional foreign keys as `Option<int>`.

The database is replaced by sequences: `findOne({id})` is "the first
element with that id", `deleteOne({id})` removes that element and reports a
deletedCount of 1 (else 0), `insertOne`/`insertMany` append and
`deleteMany({})` clears. The remote fetch and every failure are inputs: the
load takes the fetched data as `Option<RemoteData>` (None when a fetch
fails), PUT takes the parsed body as `Option<User>` (None when it does not
parse), and every handler takes a `Fault` naming which of its database
calls, numbered in the order the handler makes them (call 0 obtains the
connection), throws.

In the PUT handler every failure after the body is read — a body that
does not parse, but also a failing connection, `findOne` or `insertOne` —
lands in the inner catch at `src/server.ts:125-128` and is answered 400
"Invalid request body", never 500; `Server.Store.PutUser` keeps that.

Each handler's outcome is stated once, as a predicate of the store class
(`LoadDone`, `GetAnswer`, `DeleteAllDone`, `DeleteUserDone`, `PutDone`),
and promised both by the handler and by `Serve` for the route that reaches
it.

## Model

| member | source | states |
|---|---|---|
| `Denormalize.KeyedBy` | src/server.ts:25-29 | Every element of the filtered sequence comes from the input and has its key present and equal to the wanted value; every such input element appears in it; it is no longer than the input. |
| `Denormalize.KeyedBySelects` | src/server.ts:25-29 | The filter is exactly the subsequence of the input at the matching positions: there is a strictly increasing list of positions, containing a position iff the element there matches, whose elements are the filter's elements one by one. |
| `Denormalize.Denormalized` | src/server.ts:23-24 | The load keeps min(10, number of fetched users) users, and the i-th is the i-th fetched user with only its `posts` field replaced. |
| `Denormalize.PostEmbedding` | src/server.ts:25-30 | The posts embedded under a kept user are exactly the fetched posts whose `userId` is present and equal to the user's id, in source order, none missing and none extra, each unchanged except for `comments`. |
| `Denormalize.CommentEmbedding` | src/server.ts:27-30 | The comments embedded under each embedded post are exactly the fetched comments whose `postId` is present and equal to the post's id, in source order and unchanged. |
| `Router.IsUserIdPath` | src/server.ts:147 | `^/users/\d+$` holds of a path iff it is `/users/` followed by a non-empty string of ASCII digits. |
| `Router.Split` | src/server.ts:148 | `split('/')` always yields at least one piece; with `Router.SplitJoin` the pieces are determined. |
| `Router.ParseDecimal` | src/server.ts:53 | `parseInt` of a string of k digits is a natural number below 10^k; `Router.DecimalRoundTrip` shows it inverts the decimal rendering. |
| `Router.IntToString` | src/server.ts:122 | `${id}` starts with `-` iff the id is negative, and the rest is a non-empty digit string without a leading zero (unless it is `0`) that parses to the absolute value of the id. |
| `Router.RouteOf` | src/server.ts:143-158 | The dispatch chain; a by-id route arises only from a `^/users/\d+$` path, and its id is the decimal value of the digits after `/users/`. |
| `Router.SplitJoin` | src/server.ts:148 | Splitting a path at `/` and joining the pieces back with `/` gives the path again, and no piece contains `/`. |
| `Router.UserIdSegment` | src/server.ts:147-148 | On a path matching `^/users/\d+$`, `path.split('/')[2]` is the non-empty digit string after `/users/`. |
| `Router.DecimalRoundTrip` | src/server.ts:122 | Writing an id in decimal, as the template literal does, gives a non-empty digit string, without a leading zero for a positive id, that `parseInt` decodes back to the id. |
| `Router.RouteCharacterised` | src/server.ts:143-158 | GET `/load`, DELETE `/users` and PUT `/users` reach exactly their handlers; DELETE and GET reach the by-id handlers exactly on `^/users/\d+$` paths; every other pair, and only those, is answered "Not Found". |
| `Router.RouteById` | src/server.ts:147-152 | DELETE or GET on `/users/` followed by a non-empty digit string reaches the delete or get handler with the decimal value of the digits. |
| `Router.RouteReachesEveryId` | src/server.ts:147-152 | Every natural id is reachable by GET and DELETE on `/users/` followed by its decimal form. |
| `Router.RouteNearMisses` | src/server.ts:155-158 | GET `/users`, PUT `/users/5`, GET `/users/abc`, GET `/users/5/`, DELETE `/users/` and POST `/load` are answered "Not Found". |
| `Server.FirstIndexOf` | src/server.ts:53 | The position found holds the wanted id and no earlier position does; when nothing is found no stored user has that id. |
| `Server.FindOne` | src/server.ts:53 | `findOne({id})` finds a user iff some stored user has that id, and then it is the first of them. |
| `Server.DeleteOne` | src/server.ts:86-88 | `deleteOne({id})` reports 0 iff no stored user has the id, and then changes nothing; otherwise it reports 1 and removes exactly the first such user, keeping every other user in order. |
| `Server.FindAfterInsert` | src/server.ts:112-119 | After the conflict check passes and the payload is appended, a lookup of its id returns the payload (create/read round trip). |
| `Server.FindOtherAfterInsert` | src/server.ts:119 | Appending a user does not change the lookup of any other id. |
| `Server.InsertKeepsIdsUnique` | src/server.ts:112-119 | The existence check before `insertOne` keeps the stored ids pairwise distinct. |
| `Server.FindAfterDelete` | src/server.ts:86-92 | With distinct ids, after a delete by id the id is no longer found, and ids stay distinct. |
| `Server.LocationRoutesBack` | src/server.ts:120-123 | For a non-negative id, the `Location` header of a created user, `/users/<id>`, routes GET and DELETE back to that id; for a negative id it reads `/users/-<digits>`, which the by-id pattern rejects, so both are answered "Not Found". |
| `Server.Store.Load` | src/server.ts:13-47 | A failed connection or fetch answers 500 and changes nothing; otherwise users, posts and comments are cleared one after the other and the processed users inserted, a failure at any step answering 500 and leaving the earlier steps done; success answers 200 with users equal to the denormalised data and posts and comments empty. |
| `Server.Store.GetUser` | src/server.ts:50-68 | Never changes the store; answers 500 on a storage failure, 404 "User not found" when no user has the id, else 200 with a JSON Content-Type and the first user with that id. |
| `Server.Store.DeleteAllUsers` | src/server.ts:70-81 | On success empties users and answers 200; on a storage failure answers 500 and changes nothing; posts and comments are never touched. |
| `Server.Store.DeleteUser` | src/server.ts:83-101 | On a storage failure answers 500; when no user has the id answers 404 "User not found" and changes nothing; otherwise removes exactly the first user with the id, keeps the others in order and answers 200. |
| `Server.Store.PutUser` | src/server.ts:103-129 | An unparsable body or any storage failure answers 400 with users unchanged; an existing id answers 409 "User already exists" with users unchanged; otherwise the payload is appended verbatim and the answer is 201 with the payload, a JSON Content-Type and `Location` `/users/<id>`. |
| `Server.Store.Serve` | src/server.ts:138-164 | Each routed request has exactly the outcome of its handler (the by-id handlers with the decoded id); GET by id changes nothing; unrouted requests answer 404 "Not Found" and change nothing; every status is one of 200, 201, 400, 404, 409, 500. |
| `Server.ReloadIsIdempotent` | src/server.ts:33-39 | Two successful loads of the same remote data both answer 200 and leave the same store: the denormalised users and empty posts and comments. |
| `Server.CreateThenGet` | src/server.ts:53-62 | A PUT of a new id answers 201 and a following GET of that id answers 200 with the submitted document; a PUT of an existing id answers 409 and leaves users unchanged. |

## Left out

- `src/db.ts` (the MongoDB client, its process-wide lazily created singleton and the collection getters): replaced by the `Store` class; a failing connection is call 0 of the `Fault` parameter.
- The remote fetch from the demo API (`src/server.ts:8-11`): network I/O; its three arrays are the `RemoteData` input, and a failing fetch is `None`.
- HTTP plumbing: `createServer`, `listen`, URL parsing with the host header (the path is taken as already extracted, without percent-decoding or normalisation), `writeHead`/`end` and the JSON serialisation of bodies; responses are the `Response` datatype.
- The streamed request body (`body += chunk`), the `end` callback and event-loop interleaving, including the race between the existence check and `insertOne` in PUT: concurrency is not modelled, each handler runs to completion.
- JSON parsing of the PUT body: the parse result is an input; a body that parses to something other than a user record (for example one without `id`) is not modelled.
- The outer catch blocks of the PUT handler and of the request listener (`src/server.ts:131-135`, `159-163`): every handler catches its own failures, so in the model they are never reached.
- Ids are unbounded integers: `parseInt` losing precision above 2^53, non-integer ids, and the exponent form JavaScript uses to print integers of 10^21 and more are not modelled.
- The `_id` field MongoDB adds to inserted documents, and so to the documents GET and PUT send back.
- Server.Store.Load: a failing `insertMany` inserts nothing; a partial insert is not modelled, and the MongoDB driver's rejection of an empty `insertMany` (when the remote source returns no users) is covered only by the `Fault` parameter, not derived.
- Console logging.

/** Record shapes of the service: the flat documents served by the remote
    source and the nested documents kept in the users collection. */
module Types {

  /** An optional field: a JSON property that may be absent. */
  datatype Option<+T> = None | Some(value: T)

  /** Geo, Address and Company are carried along verbatim; nothing in the
      service inspects them. */
  datatype Geo = Geo(lat: string, lng: string)

  datatype Address = Address(street: string, suite: string, city: string, zipcode: string, geo: Geo)

  datatype Company = Company(name: string, catchPhrase: string, bs: string)

  /** A comment; `postId` links it to a post and may be missing. */
  datatype Comment = Comment(id: int, name: string, email: string, body: string, postId: Option<int>)

  /** A post; `userId` links it to a user and may be missing; `comments` is
      filled in when the post is embedded under its user. */
  datatype Post = Post(id: int, title: string, body: string, userId: Option<int>, comments: seq<Comment>)

  /** A user; `posts` is filled in when the remote data is denormalised. */
  datatype User = User(
    id: int,
    name: string,
    username: string,
    email: string,
    address: Address,
    phone: string,
    website: string,
    company: Company,
    posts: seq<Post>)

  /** The foreign key of a post, as used by the post filter. */
  function PostOwner(p: Post): Option<int> { p.userId }

  /** The foreign key of a comment, as used by the comment filter. */
  function CommentParent(c: Comment): Option<int> { c.postId }
}

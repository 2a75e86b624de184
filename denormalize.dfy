/** The denormalisation performed by the load operation: the first users of
    the remote source, each with its posts embedded, each post with its
    comments embedded. */
module Denormalize {
  import opened Types

  /** The load keeps at most this many users (`users.slice(0, 10)`). */
  const MaxUsers: nat := 10

  function Min(a: nat, b: nat): nat { if a <= b then a else b }

  /** `s.filter(x => key(x) === k)`: the elements whose key is present and
      equal to k, in their original order. An absent key never matches. */
  function KeyedBy<T>(s: seq<T>, key: T -> Option<int>, k: int): (r: seq<T>)
    ensures |r| <= |s|
    ensures forall j :: 0 <= j < |r| ==> r[j] in s && key(r[j]) == Some(k)
    ensures forall i :: 0 <= i < |s| && key(s[i]) == Some(k) ==> s[i] in r
  {
    if s == [] then []
    else
      assert s == [s[0]] + s[1..];
      if key(s[0]) == Some(k) then [s[0]] + KeyedBy(s[1..], key, k)
      else KeyedBy(s[1..], key, k)
  }

  ghost predicate Increasing(idx: seq<nat>) {
    forall a, b :: 0 <= a < b < |idx| ==> idx[a] < idx[b]
  }

  /** idx lists, in increasing order, exactly the positions of s whose key
      is present and equal to k. */
  ghost predicate PositionsOf<T>(idx: seq<nat>, s: seq<T>, key: T -> Option<int>, k: int) {
    && Increasing(idx)
    && (forall j :: 0 <= j < |idx| ==> idx[j] < |s|)
    && (forall i :: 0 <= i < |s| ==> (key(s[i]) == Some(k) <==> i in idx))
  }

  /** Every position moved one place to the right. */
  function Shift(idx: seq<nat>): seq<nat>
  {
    seq(|idx|, j requires 0 <= j < |idx| => idx[j] + 1)
  }

  lemma ShiftMembers(idx: seq<nat>, n: nat)
    ensures n + 1 in Shift(idx) <==> n in idx
    ensures 0 !in Shift(idx)
  {
    if n in idx {
      var j :| 0 <= j < |idx| && idx[j] == n;
      assert Shift(idx)[j] == n + 1;
    }
  }

  lemma ShiftIncreasing(idx: seq<nat>)
    requires Increasing(idx)
    ensures Increasing(Shift(idx))
    ensures Increasing([0] + Shift(idx))
  {
    var z := [0] + Shift(idx);
    forall a, b | 0 <= a < b < |z| ensures z[a] < z[b] {
      if a > 0 { assert z[a] == idx[a - 1] + 1 && z[b] == idx[b - 1] + 1; }
    }
  }

  /** The positions of s are those of its tail, moved right, and 0 in front
      when the head matches. */
  lemma ConsPositions<T>(s: seq<T>, key: T -> Option<int>, k: int, rest: seq<nat>)
    requires s != [] && PositionsOf(rest, s[1..], key, k)
    ensures PositionsOf(if key(s[0]) == Some(k) then [0] + Shift(rest) else Shift(rest), s, key, k)
  {
    var idx := if key(s[0]) == Some(k) then [0] + Shift(rest) else Shift(rest);
    ShiftIncreasing(rest);
    ShiftMembers(rest, 0);
    forall i | 0 <= i < |s|
      ensures key(s[i]) == Some(k) <==> i in idx
    {
      if i > 0 {
        ShiftMembers(rest, i - 1);
        assert s[i] == s[1..][i - 1];
      }
    }
  }

  /** The elements of the filter over s are those of the filter over its
      tail, with the head in front when it matches. */
  lemma ConsElements<T>(s: seq<T>, key: T -> Option<int>, k: int, rest: seq<nat>)
    requires s != [] && |rest| == |KeyedBy(s[1..], key, k)|
    requires forall j :: 0 <= j < |rest| ==> rest[j] < |s| - 1 && KeyedBy(s[1..], key, k)[j] == s[1..][rest[j]]
    ensures var idx := if key(s[0]) == Some(k) then [0] + Shift(rest) else Shift(rest);
      && |idx| == |KeyedBy(s, key, k)|
      && forall j :: 0 <= j < |idx| ==> KeyedBy(s, key, k)[j] == s[idx[j]]
  {
    var tail := KeyedBy(s[1..], key, k);
    var shifted := Shift(rest);
    if key(s[0]) == Some(k) {
      var idx := [0] + shifted;
      assert KeyedBy(s, key, k) == [s[0]] + tail;
      forall j | 0 < j < |idx|
        ensures KeyedBy(s, key, k)[j] == s[idx[j]]
      {
        assert idx[j] == rest[j - 1] + 1;
        assert tail[j - 1] == s[1..][rest[j - 1]];
      }
    } else {
      assert KeyedBy(s, key, k) == tail;
      forall j | 0 <= j < |shifted|
        ensures KeyedBy(s, key, k)[j] == s[shifted[j]]
      {
        assert tail[j] == s[1..][rest[j]];
      }
    }
  }

  /** The filter picks out exactly the matching positions of s, in
      increasing order: every matching element appears, no other does, and
      relative order is kept. */
  lemma {:induction false} KeyedBySelects<T>(s: seq<T>, key: T -> Option<int>, k: int) returns (idx: seq<nat>)
    ensures PositionsOf(idx, s, key, k)
    ensures |idx| == |KeyedBy(s, key, k)|
    ensures forall j :: 0 <= j < |idx| ==> KeyedBy(s, key, k)[j] == s[idx[j]]
  {
    if s == [] {
      idx := [];
    } else {
      var rest := KeyedBySelects(s[1..], key, k);
      ConsPositions(s, key, k, rest);
      ConsElements(s, key, k, rest);
      idx := if key(s[0]) == Some(k) then [0] + Shift(rest) else Shift(rest);
    }
  }

  /** `{ ...post, comments: comments.filter(c => c.postId === post.id) }` */
  function WithComments(p: Post, comments: seq<Comment>): Post {
    p.(comments := KeyedBy(comments, CommentParent, p.id))
  }

  /** `posts.filter(p => p.userId === user.id).map(WithComments)` */
  function PostsOf(posts: seq<Post>, uid: int, comments: seq<Comment>): (r: seq<Post>)
  {
    var mine := KeyedBy(posts, PostOwner, uid);
    seq(|mine|, j requires 0 <= j < |mine| => WithComments(mine[j], comments))
  }

  /** `{ ...user, posts: PostsOf(...) }` */
  function WithPosts(u: User, posts: seq<Post>, comments: seq<Comment>): User {
    u.(posts := PostsOf(posts, u.id, comments))
  }

  /** The `processedUsers` of the load operation. */
  function Denormalized(users: seq<User>, posts: seq<Post>, comments: seq<Comment>): (r: seq<User>)
    ensures |r| == Min(MaxUsers, |users|)
    ensures forall i :: 0 <= i < |r| ==> r[i].(posts := users[i].posts) == users[i]
  {
    var kept := users[..Min(MaxUsers, |users|)];
    seq(|kept|, i requires 0 <= i < |kept| => WithPosts(kept[i], posts, comments))
  }

  /** The posts embedded under the i-th kept user are exactly the posts whose
      userId is that user's id, in source order, each unchanged except for
      its comments. */
  lemma PostEmbedding(users: seq<User>, posts: seq<Post>, comments: seq<Comment>, i: nat) returns (idx: seq<nat>)
    requires i < |users| && i < MaxUsers
    ensures i < |Denormalized(users, posts, comments)|
    ensures PositionsOf(idx, posts, PostOwner, users[i].id)
    ensures |idx| == |Denormalized(users, posts, comments)[i].posts|
    ensures forall j :: 0 <= j < |idx| ==>
      Denormalized(users, posts, comments)[i].posts[j].(comments := posts[idx[j]].comments) == posts[idx[j]]
  {
    idx := KeyedBySelects(posts, PostOwner, users[i].id);
  }

  /** The comments embedded under the j-th post of the i-th kept user are
      exactly the comments whose postId is that post's id, in source order
      and unchanged. */
  lemma CommentEmbedding(users: seq<User>, posts: seq<Post>, comments: seq<Comment>, i: nat, j: nat) returns (idx: seq<nat>)
    requires i < |users| && i < MaxUsers
    requires j < |Denormalized(users, posts, comments)[i].posts|
    ensures PositionsOf(idx, comments, CommentParent, Denormalized(users, posts, comments)[i].posts[j].id)
    ensures |idx| == |Denormalized(users, posts, comments)[i].posts[j].comments|
    ensures forall m :: 0 <= m < |idx| ==>
      Denormalized(users, posts, comments)[i].posts[j].comments[m] == comments[idx[m]]
  {
    var p := Denormalized(users, posts, comments)[i].posts[j];
    idx := KeyedBySelects(comments, CommentParent, p.id);
  }
}

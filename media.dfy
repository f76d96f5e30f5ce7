/** The video record the server returns and the list rules the feed (Home) and
    the profile (Profile) apply to it when a card reports new likes or comments. */
module Media {
  import opened Wrappers

  type UserId = string

  /** The signed-in user (`useAuth().user`); only `_id` matters to the handlers. */
  datatype User = User(id: UserId, username: string)

  /** One entry of a video's `likes` array: `{ user }`. */
  datatype Like = Like(user: UserId)

  /** One entry of a video's `comments` array, kept in server order. */
  datatype Comment = Comment(user: UserId, text: string)

  /** A video as the server sends it; `_id` is `id`. */
  datatype Video = Video(id: string, owner: UserId, description: string, videoUrl: string,
                         likes: seq<Like>, comments: seq<Comment>, createdAt: string)

  /** No two videos of the list share an `_id`. */
  predicate UniqueIds(vs: seq<Video>)
  {
    forall i, j :: 0 <= i < j < |vs| ==> vs[i].id != vs[j].id
  }

  /** `vs.map(video => video._id === id ? { ...video, likes } : video)`. */
  function WithLikes(vs: seq<Video>, id: string, likes: seq<Like>): (r: seq<Video>)
    ensures |r| == |vs|
    ensures forall i :: 0 <= i < |vs| ==>
      r[i] == if vs[i].id == id then vs[i].(likes := likes) else vs[i]
  {
    if vs == [] then []
    else [if vs[0].id == id then vs[0].(likes := likes) else vs[0]] + WithLikes(vs[1..], id, likes)
  }

  /** `vs.map(video => video._id === id ? { ...video, comments } : video)`. */
  function WithComments(vs: seq<Video>, id: string, comments: seq<Comment>): (r: seq<Video>)
    ensures |r| == |vs|
    ensures forall i :: 0 <= i < |vs| ==>
      r[i] == if vs[i].id == id then vs[i].(comments := comments) else vs[i]
  {
    if vs == [] then []
    else [if vs[0].id == id then vs[0].(comments := comments) else vs[0]] + WithComments(vs[1..], id, comments)
  }

  /** `vs.find(v => v._id === id)`: the first video with that id, if any. */
  function Find(vs: seq<Video>, id: string): (r: Option<Video>)
    ensures r.None? <==> forall i :: 0 <= i < |vs| ==> vs[i].id != id
    ensures r.Some? ==> exists i :: 0 <= i < |vs| && vs[i] == r.value && vs[i].id == id
                                    && forall j :: 0 <= j < i ==> vs[j].id != id
  {
    if vs == [] then None
    else if vs[0].id == id then Some(vs[0])
    else
      Find(vs[1..], id)
  }

  /** `vs.reduce((sum, video) => sum + video.likes.length, 0)`. */
  function SumLikes(vs: seq<Video>): nat
  {
    if vs == [] then 0 else |vs[0].likes| + SumLikes(vs[1..])
  }

  /** `vs.reduce((sum, video) => sum + video.comments.length, 0)`. */
  function SumComments(vs: seq<Video>): nat
  {
    if vs == [] then 0 else |vs[0].comments| + SumComments(vs[1..])
  }

  /** `reduce` adds from the left: the sum of a list extended by one video is
      the sum so far plus that video's like count. */
  lemma {:induction false} SumLikesAppend(vs: seq<Video>, v: Video)
    ensures SumLikes(vs + [v]) == SumLikes(vs) + |v.likes|
  {
    if vs != [] {
      assert (vs + [v])[1..] == vs[1..] + [v];
      SumLikesAppend(vs[1..], v);
    }
  }

  /** The same for the comment sum. */
  lemma {:induction false} SumCommentsAppend(vs: seq<Video>, v: Video)
    ensures SumComments(vs + [v]) == SumComments(vs) + |v.comments|
  {
    if vs != [] {
      assert (vs + [v])[1..] == vs[1..] + [v];
      SumCommentsAppend(vs[1..], v);
    }
  }

  /** The change in the like total that replacing the likes of video `id` by
      `likes` makes, judged from the first video with that id. */
  function LikeDiff(vs: seq<Video>, id: string, likes: seq<Like>): int
  {
    match Find(vs, id)
    case Some(v) => |likes| - |v.likes|
    case None => 0
  }

  /** The same for the comment total. */
  function CommentDiff(vs: seq<Video>, id: string, comments: seq<Comment>): int
  {
    match Find(vs, id)
    case Some(v) => |comments| - |v.comments|
    case None => 0
  }

  /** A list update for an id that is not in the list gives back the list. */
  lemma UnknownIdKeepsList(vs: seq<Video>, id: string, likes: seq<Like>, comments: seq<Comment>)
    requires Find(vs, id).None?
    ensures WithLikes(vs, id, likes) == vs
    ensures WithComments(vs, id, comments) == vs
  {
    assert forall i :: 0 <= i < |vs| ==> WithLikes(vs, id, likes)[i] == vs[i];
    assert forall i :: 0 <= i < |vs| ==> WithComments(vs, id, comments)[i] == vs[i];
  }

  /** Applying the same like update twice is the same as applying it once. */
  lemma WithLikesIdempotent(vs: seq<Video>, id: string, likes: seq<Like>)
    ensures WithLikes(WithLikes(vs, id, likes), id, likes) == WithLikes(vs, id, likes)
  {
    var once := WithLikes(vs, id, likes);
    assert forall i :: 0 <= i < |vs| ==> WithLikes(once, id, likes)[i] == once[i];
  }

  /** Applying the same comment update twice is the same as applying it once. */
  lemma WithCommentsIdempotent(vs: seq<Video>, id: string, comments: seq<Comment>)
    ensures WithComments(WithComments(vs, id, comments), id, comments) == WithComments(vs, id, comments)
  {
    var once := WithComments(vs, id, comments);
    assert forall i :: 0 <= i < |vs| ==> WithComments(once, id, comments)[i] == once[i];
  }

  /** Updates never change an id, so they keep ids unique. */
  lemma UpdatesKeepIdsUnique(vs: seq<Video>, id: string, likes: seq<Like>, comments: seq<Comment>)
    requires UniqueIds(vs)
    ensures UniqueIds(WithLikes(vs, id, likes))
    ensures UniqueIds(WithComments(vs, id, comments))
  {
  }

  /** With unique ids, the like total after replacing the likes of video `id` is
      the old total plus the difference the profile adds; the comment total
      does not move. */
  lemma {:induction false} SumsAfterWithLikes(vs: seq<Video>, id: string, likes: seq<Like>)
    requires UniqueIds(vs)
    ensures SumLikes(WithLikes(vs, id, likes)) == SumLikes(vs) + LikeDiff(vs, id, likes)
    ensures SumComments(WithLikes(vs, id, likes)) == SumComments(vs)
  {
    if vs != [] {
      var r := WithLikes(vs, id, likes);
      assert r[1..] == WithLikes(vs[1..], id, likes);
      if vs[0].id == id {
        assert Find(vs[1..], id).None? by {
          forall i | 0 <= i < |vs[1..]| ensures vs[1..][i].id != id {
            assert vs[1..][i] == vs[i + 1];
          }
        }
        UnknownIdKeepsList(vs[1..], id, likes, []);
      } else {
        SumsAfterWithLikes(vs[1..], id, likes);
      }
    }
  }

  /** The same for replacing comments: the comment total moves by the
      profile's difference and the like total does not move. */
  lemma {:induction false} SumsAfterWithComments(vs: seq<Video>, id: string, comments: seq<Comment>)
    requires UniqueIds(vs)
    ensures SumComments(WithComments(vs, id, comments)) == SumComments(vs) + CommentDiff(vs, id, comments)
    ensures SumLikes(WithComments(vs, id, comments)) == SumLikes(vs)
  {
    if vs != [] {
      var r := WithComments(vs, id, comments);
      assert r[1..] == WithComments(vs[1..], id, comments);
      if vs[0].id == id {
        assert Find(vs[1..], id).None? by {
          forall i | 0 <= i < |vs[1..]| ensures vs[1..][i].id != id {
            assert vs[1..][i] == vs[i + 1];
          }
        }
        UnknownIdKeepsList(vs[1..], id, [], comments);
      } else {
        SumsAfterWithComments(vs[1..], id, comments);
      }
    }
  }

  /** Without unique ids the difference is wrong: two videos share an id, both
      receive the new likes, but the difference is counted once. */
  lemma DuplicateIdsMiscountLikes()
    ensures var v := Video("v1", "u1", "", "", [], [], "");
            var vs := [v, v];
            SumLikes(WithLikes(vs, "v1", [Like("u2")])) != SumLikes(vs) + LikeDiff(vs, "v1", [Like("u2")])
  {
    var v := Video("v1", "u1", "", "", [], [], "");
    var vs := [v, v];
    var r := WithLikes(vs, "v1", [Like("u2")]);
    assert r == [v.(likes := [Like("u2")]), v.(likes := [Like("u2")])];
    assert SumLikes(r[1..][1..]) == 0 by { assert r[1..][1..] == []; }
    assert SumLikes(r[1..]) == 1;
    assert SumLikes(vs[1..][1..]) == 0 by { assert vs[1..][1..] == []; }
    assert SumLikes(vs) == 0;
  }
}

/** The profile page: the signed-in user's videos and three totals over them,
    kept up to date by adding the change each card reports. */
module Profile {
  import opened Wrappers
  import opened Media

  class ProfilePage {
    var userVideos: seq<Video>
    var loading: bool
    var totalVideos: int
    var totalLikes: int
    var totalComments: int

    /** The totals are what the list adds up to. */
    ghost predicate StatsMatch()
      reads this
    {
      totalVideos == |userVideos| && totalLikes == SumLikes(userVideos)
      && totalComments == SumComments(userVideos)
    }

    /** What the running totals rely on: they match, and no two videos share
        an id. */
    ghost predicate Valid()
      reads this
    {
      StatsMatch() && UniqueIds(userVideos)
    }

    constructor ()
      ensures userVideos == [] && loading
      ensures totalVideos == 0 && totalLikes == 0 && totalComments == 0
      ensures Valid()
    {
      userVideos, loading := [], true;
      totalVideos, totalLikes, totalComments := 0, 0, 0;
    }

    /** `fetchUserVideos`: a success takes the server's list and recomputes the
        three totals from it; a failure is only logged; loading ends either
        way. */
    method FetchUserVideos(response: Outcome<seq<Video>>)
      modifies this
      ensures !loading
      ensures response.Ok? ==>
        userVideos == response.data && totalVideos == |response.data|
        && totalLikes == SumLikes(response.data) && totalComments == SumComments(response.data)
      ensures response.Failed? ==>
        userVideos == old(userVideos) && totalVideos == old(totalVideos)
        && totalLikes == old(totalLikes) && totalComments == old(totalComments)
      ensures response.Ok? ==> StatsMatch()
      ensures response.Ok? && UniqueIds(response.data) ==> Valid()
      ensures response.Failed? && old(Valid()) ==> Valid()
    {
      match response {
        case Ok(videos) =>
          userVideos := videos;
          totalVideos, totalLikes, totalComments := |videos|, SumLikes(videos), SumComments(videos);
        case Failed(_) =>
      }
      loading := false;
    }

    /** `handleLike`: the videos with that id take the new likes, and the like
        total moves by the new count minus the old count of the first video
        with that id (by nothing for an unknown id). With unique ids this keeps
        the totals equal to the sums over the list. */
    method HandleLike(videoId: string, likes: seq<Like>)
      modifies this`userVideos, this`totalLikes
      ensures userVideos == WithLikes(old(userVideos), videoId, likes)
      ensures totalLikes == old(totalLikes) + LikeDiff(old(userVideos), videoId, likes)
      ensures Find(old(userVideos), videoId).None? ==>
        userVideos == old(userVideos) && totalLikes == old(totalLikes)
      ensures old(Valid()) ==> Valid()
    {
      var diff := LikeDiff(userVideos, videoId, likes);
      if UniqueIds(userVideos) {
        SumsAfterWithLikes(userVideos, videoId, likes);
        UpdatesKeepIdsUnique(userVideos, videoId, likes, []);
      }
      if Find(userVideos, videoId).None? {
        UnknownIdKeepsList(userVideos, videoId, likes, []);
      }
      userVideos := WithLikes(userVideos, videoId, likes);
      totalLikes := totalLikes + diff;
    }

    /** `handleComment`: the same for comments and the comment total. */
    method HandleComment(videoId: string, comments: seq<Comment>)
      modifies this`userVideos, this`totalComments
      ensures userVideos == WithComments(old(userVideos), videoId, comments)
      ensures totalComments == old(totalComments) + CommentDiff(old(userVideos), videoId, comments)
      ensures Find(old(userVideos), videoId).None? ==>
        userVideos == old(userVideos) && totalComments == old(totalComments)
      ensures old(Valid()) ==> Valid()
    {
      var diff := CommentDiff(userVideos, videoId, comments);
      if UniqueIds(userVideos) {
        SumsAfterWithComments(userVideos, videoId, comments);
        UpdatesKeepIdsUnique(userVideos, videoId, [], comments);
      }
      if Find(userVideos, videoId).None? {
        UnknownIdKeepsList(userVideos, videoId, [], comments);
      }
      userVideos := WithComments(userVideos, videoId, comments);
      totalComments := totalComments + diff;
    }
  }

  /** Loading a list with unique ids, then one like and one comment reported by
      cards: the totals are the sums over the resulting list and the video
      count is still the list's length. */
  method TotalsFollowReports(data: seq<Video>, likeId: string, likes: seq<Like>,
                             commentId: string, comments: seq<Comment>)
    returns (videos: seq<Video>, total: int, likesTotal: int, commentsTotal: int)
    requires UniqueIds(data)
    ensures videos == WithComments(WithLikes(data, likeId, likes), commentId, comments)
    ensures total == |data| == |videos|
    ensures likesTotal == SumLikes(videos) && commentsTotal == SumComments(videos)
  {
    var page := new ProfilePage();
    page.FetchUserVideos(Ok(data));
    page.HandleLike(likeId, likes);
    page.HandleComment(commentId, comments);
    videos := page.userVideos;
    total, likesTotal, commentsTotal := page.totalVideos, page.totalLikes, page.totalComments;
  }
}

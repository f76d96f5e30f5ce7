/** The feed page: loads every video once and keeps each card's reported likes
    and comments in its list. */
module Home {
  import opened Wrappers
  import opened Media
  import VideoCard

  const LoadFailedMessage := "Failed to load videos"

  class HomePage {
    var videos: seq<Video>
    var loading: bool
    /** The load error; while it is set the page shows it instead of the feed. */
    var error: Option<string>

    constructor ()
      ensures videos == [] && loading && error == None
    {
      videos, loading, error := [], true, None;
    }

    /** `fetchVideos` (on mount, and from the "Try Again" button): a success
        takes the server's list, a failure sets the error; loading ends either
        way. Neither path clears an earlier error. */
    method FetchVideos(response: Outcome<seq<Video>>)
      modifies this
      ensures !loading
      ensures response.Ok? ==> videos == response.data && error == old(error)
      ensures response.Failed? ==> videos == old(videos) && error == Some(LoadFailedMessage)
    {
      match response {
        case Ok(data) =>
          videos := data;
        case Failed(_) =>
          error := Some(LoadFailedMessage);
      }
      loading := false;
    }

    /** `handleLike`, the cards' `onLike`: the videos with that id take the new
        likes; the list keeps its length, its order and every other video. */
    method HandleLike(videoId: string, likes: seq<Like>)
      modifies this`videos
      ensures videos == WithLikes(old(videos), videoId, likes)
    {
      videos := WithLikes(videos, videoId, likes);
    }

    /** `handleComment`, the cards' `onComment`: the same for comments. */
    method HandleComment(videoId: string, comments: seq<Comment>)
      modifies this`videos
      ensures videos == WithComments(old(videos), videoId, comments)
    {
      videos := WithComments(videos, videoId, comments);
    }
  }

  /** A successful "Try Again" after a failed load fills the list but leaves the
      error set, so the page keeps showing the error instead of the feed. */
  method RetryKeepsError(message: Option<string>, data: seq<Video>)
    returns (videos: seq<Video>, error: Option<string>, loading: bool)
    ensures videos == data && error == Some(LoadFailedMessage) && !loading
  {
    var page := new HomePage();
    page.FetchVideos(Failed(message));
    page.FetchVideos(Ok(data));
    videos, error, loading := page.videos, page.error, page.loading;
  }

  /** Liking the `i`-th video of the feed from its card: after the server
      answers, that video in the page's list carries exactly the server's
      likes, and every other video is as it was. */
  method LikeFromFeed(data: seq<Video>, i: nat, user: User, serverLikes: seq<Like>)
    returns (feed: seq<Video>)
    requires UniqueIds(data) && i < |data|
    ensures |feed| == |data|
    ensures feed[i] == data[i].(likes := serverLikes)
    ensures forall j :: 0 <= j < |data| && j != i ==> feed[j] == data[j]
  {
    var page := new HomePage();
    page.FetchVideos(Ok(data));
    var card := new VideoCard.Card(data[i], Some(user));
    var _, notice := card.HandleLike(Some(user), Ok(serverLikes));
    page.HandleLike(notice.value.videoId, notice.value.likes);
    feed := page.videos;
  }
}

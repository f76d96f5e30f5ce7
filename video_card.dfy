/** One card of the feed: a looping, muted <video> plus like and comment controls.
    The card plays whenever its element is at least half in view and toggles on
    a click; likes and comments change only when the server has answered, and
    then take the server's value as it is. */
module VideoCard {
  import opened Wrappers
  import opened Text
  import opened Media

  /** A command the card sends to its <video> element. */
  datatype PlayerCommand = Play | Pause

  /** A POST the card sends: `/api/videos/:id/like` or `/api/videos/:id/comment`. */
  datatype Request = LikePost(videoId: string) | CommentPost(videoId: string, text: string)

  /** A call of the page's `onLike` or `onComment` callback. */
  datatype Notice = LikesChanged(videoId: string, likes: seq<Like>)
                  | CommentsChanged(videoId: string, comments: seq<Comment>)

  /** `likes.some(like => like.user === userId)`. */
  function LikedBy(likes: seq<Like>, userId: UserId): (r: bool)
    ensures r <==> exists i :: 0 <= i < |likes| && likes[i].user == userId
  {
    if likes == [] then false
    else likes[0].user == userId || LikedBy(likes[1..], userId)
  }

  /** The commands an observer batch sends, one per entry: play for an
      intersecting entry, pause for any other. */
  function Commands(entries: seq<bool>): (r: seq<PlayerCommand>)
    ensures |r| == |entries|
    ensures forall i :: 0 <= i < |entries| ==> r[i] == if entries[i] then Play else Pause
  {
    if entries == [] then []
    else [if entries[0] then Play else Pause] + Commands(entries[1..])
  }

  lemma CommandsSnoc(entries: seq<bool>, last: bool)
    ensures Commands(entries + [last]) == Commands(entries) + [if last then Play else Pause]
  {
    var r := Commands(entries + [last]);
    assert forall i :: 0 <= i < |entries| ==> r[i] == Commands(entries)[i];
  }

  class Card {
    /** The `video` prop; the card never changes it. */
    const video: Video
    var isPlaying: bool
    var likes: seq<Like>
    var isLiked: bool
    var comments: seq<Comment>
    /** The comment input's text. */
    var comment: string
    /** Every command sent to the <video> element so far, oldest first. */
    var player: seq<PlayerCommand>

    /** Mounting the card for `video` while `user` is signed in (or nobody is). */
    constructor (video: Video, user: Option<User>)
      ensures this.video == video
      ensures !isPlaying && player == []
      ensures likes == video.likes && comments == video.comments && comment == ""
      ensures isLiked <==> user.Some? && exists i :: 0 <= i < |likes| && likes[i].user == user.value.id
    {
      this.video := video;
      isPlaying := false;
      likes := video.likes;
      comments := video.comments;
      comment := "";
      isLiked := if user.Some? then LikedBy(video.likes, user.value.id) else false;
      player := [];
    }

    /** The IntersectionObserver callback (threshold 0.5) on a batch of entries,
        each given by its `isIntersecting`: every entry plays or pauses the
        element, so the last entry of the batch decides. */
    method ObserveEntries(entries: seq<bool>)
      modifies this`isPlaying, this`player
      ensures isPlaying == if entries == [] then old(isPlaying) else entries[|entries| - 1]
      ensures player == old(player) + Commands(entries)
    {
      var i := 0;
      while i < |entries|
        invariant 0 <= i <= |entries|
        invariant isPlaying == if i == 0 then old(isPlaying) else entries[i - 1]
        invariant player == old(player) + Commands(entries[..i])
      {
        if entries[i] {
          player := player + [Play];
          isPlaying := true;
        } else {
          player := player + [Pause];
          isPlaying := false;
        }
        CommandsSnoc(entries[..i], entries[i]);
        assert entries[..i + 1] == entries[..i] + [entries[i]];
        i := i + 1;
      }
      assert entries[..i] == entries;
    }

    /** `handleVideoClick`: pause a playing element, play a paused one. */
    method Click()
      modifies this`isPlaying, this`player
      ensures isPlaying == !old(isPlaying)
      ensures player == old(player) + [if old(isPlaying) then Pause else Play]
    {
      if isPlaying {
        player := player + [Pause];
        isPlaying := false;
      } else {
        player := player + [Play];
        isPlaying := true;
      }
    }

    /** `handleLike` with `user` signed in (or not) and `response` the outcome of
        the POST, which matters only when one is sent. Nothing changes before the
        answer; a success takes the server's list and flips `isLiked`; a failure
        is only logged. */
    method HandleLike(user: Option<User>, response: Outcome<seq<Like>>)
      returns (request: Option<Request>, notice: Option<Notice>)
      modifies this`likes, this`isLiked
      ensures request == if user.Some? then Some(LikePost(video.id)) else None
      ensures user.Some? && response.Ok? ==>
        likes == response.data && isLiked == !old(isLiked)
        && notice == Some(LikesChanged(video.id, response.data))
      ensures user.None? || response.Failed? ==>
        likes == old(likes) && isLiked == old(isLiked) && notice == None
      // the heart tracks the list only as long as the server toggles this user's like
      ensures user.Some? && response.Ok? && old(isLiked) == LikedBy(old(likes), user.value.id)
              && LikedBy(response.data, user.value.id) == !LikedBy(old(likes), user.value.id)
              ==> isLiked == LikedBy(likes, user.value.id)
    {
      request, notice := None, None;
      if user.None? {
        return;
      }
      request := Some(LikePost(video.id));
      match response {
        case Ok(serverLikes) =>
          likes := serverLikes;
          isLiked := !isLiked;
          notice := Some(LikesChanged(video.id, serverLikes));
        case Failed(_) =>
      }
    }

    /** The comment input's `onChange`. */
    method EditComment(text: string)
      modifies this`comment
      ensures comment == text
    {
      comment := text;
    }

    /** `handleComment`: with nobody signed in or a blank input nothing is sent;
        otherwise the untrimmed input is posted, and a success takes the
        server's comment list and clears the input, while a failure keeps both. */
    method HandleComment(user: Option<User>, response: Outcome<seq<Comment>>)
      returns (request: Option<Request>, notice: Option<Notice>)
      modifies this`comments, this`comment
      ensures request == if user.Some? && !IsBlank(old(comment)) then Some(CommentPost(video.id, old(comment))) else None
      ensures request.Some? && response.Ok? ==>
        comments == response.data && comment == ""
        && notice == Some(CommentsChanged(video.id, response.data))
      ensures request.None? || response.Failed? ==>
        comments == old(comments) && comment == old(comment) && notice == None
    {
      request, notice := None, None;
      if user.None? || Trim(comment) == "" {
        return;
      }
      request := Some(CommentPost(video.id, comment));
      match response {
        case Ok(serverComments) =>
          comments := serverComments;
          comment := "";
          notice := Some(CommentsChanged(video.id, serverComments));
        case Failed(_) =>
      }
    }
  }

  /** Whatever the observer last reported, two clicks bring the card back to it
      after sending one play and one pause. */
  method TwoClicksRestore(video: Video, user: Option<User>, visible: bool)
    returns (playing: bool, sent: seq<PlayerCommand>)
    ensures playing == visible
    ensures sent == [if visible then Play else Pause] + (if visible then [Pause, Play] else [Play, Pause])
  {
    var card := new Card(video, user);
    card.ObserveEntries([visible]);
    card.Click();
    card.Click();
    playing, sent := card.isPlaying, card.player;
  }

  /** A like that fails leaves the card exactly as it was and tells the page
      nothing; a later success then takes the server's list as it is. */
  method LikeFailsThenSucceeds(video: Video, user: User, message: Option<string>, serverLikes: seq<Like>)
    returns (afterFailure: seq<Like>, afterSuccess: seq<Like>, first: Option<Notice>, second: Option<Notice>)
    ensures afterFailure == video.likes && first == None
    ensures afterSuccess == serverLikes && second == Some(LikesChanged(video.id, serverLikes))
  {
    var card := new Card(video, Some(user));
    var _, n1 := card.HandleLike(Some(user), Failed(message));
    afterFailure, first := card.likes, n1;
    var _, n2 := card.HandleLike(Some(user), Ok(serverLikes));
    afterSuccess, second := card.likes, n2;
  }
}

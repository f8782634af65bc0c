/**
 * The post detail page: the image carousel's cyclic indices, the like toggle,
 * the author-only controls and the chat-join policy that decides whether the
 * chat modal opens.
 */
module BoardDetail {
  import opened Wrappers

  /** The fields of a fetched post that the page's logic reads or updates. */
  datatype Post = Post(id: int, favoriteCount: int, imageUrls: seq<string>, writerEmail: Option<string>, chatRoomId: int)

  /** `handlePrevImage`'s update: 0 wraps to the last index. */
  function PrevIndex(i: int, n: int): (j: int)
    ensures 0 <= i < n ==> 0 <= j < n
    ensures i == 0 ==> j == n - 1
    ensures i != 0 ==> j == i - 1
  {
    if i == 0 then n - 1 else i - 1
  }

  /** `handleNextImage`'s update: the last index wraps to 0. */
  function NextIndex(i: int, n: int): (j: int)
    ensures 0 <= i < n ==> 0 <= j < n
    ensures i == n - 1 ==> j == 0
    ensures i != n - 1 ==> j == i + 1
  {
    if i == n - 1 then 0 else i + 1
  }

  /** Next undoes prev and prev undoes next, on every valid index. */
  lemma PrevNextInverse(i: int, n: int)
    requires 0 <= i < n
    ensures NextIndex(PrevIndex(i, n), n) == i
    ensures PrevIndex(NextIndex(i, n), n) == i
  {
  }

  /** The index after `k` presses of "next". */
  function NextTimes(i: int, n: int, k: nat): int
  {
    if k == 0 then i else NextIndex(NextTimes(i, n, k - 1), n)
  }

  /** Up to one full round, pressing "next" `k` times advances by `k`, wrapping past the last image once. */
  lemma {:induction false} NextTimesAdvances(i: int, n: int, k: nat)
    requires 0 <= i < n && k <= n
    ensures NextTimes(i, n, k) == if i + k < n then i + k else i + k - n
  {
    if k > 0 {
      NextTimesAdvances(i, n, k - 1);
    }
  }

  /** `n` presses of "next" on `n` images come back to the starting image. */
  lemma FullCycle(i: int, n: int)
    requires 0 <= i < n
    ensures NextTimes(i, n, n) == i
  {
    NextTimesAdvances(i, n, n);
  }

  /**
   * `post?.writerEmail === email`. The left side is `undefined` when no post
   * is loaded or the post has no writer; the store's email is `null` until a
   * token is decoded and `undefined` for a token without `sub`. Strict
   * equality matches the two `undefined`s but never `undefined` with `null`.
   */
  function IsAuthor(post: Option<Post>, email: Nullable<string>): (b: bool)
    ensures email.Null? ==> !b
    ensures post.Some? && post.value.writerEmail.Some? ==> (b <==> email == Present(post.value.writerEmail.value))
    ensures post.None? || post.value.writerEmail.None? ==> (b <==> email.Undefined?)
  {
    (if post.Some? then Read(post.value.writerEmail) else Undefined) == email
  }

  /**
   * Edit and delete are shown to an authenticated author of the loaded post
   * (the page returns early while no post is loaded). A session whose token
   * carries no `sub` counts as the author of a post without a writer.
   */
  function ShowAuthorControls(isAuthenticated: Option<bool>, post: Option<Post>, email: Nullable<string>): (show: bool)
    ensures show <==>
      && isAuthenticated == Some(true) && post.Some?
      && (if post.value.writerEmail.Some? then email == Present(post.value.writerEmail.value) else email.Undefined?)
    ensures isAuthenticated == Some(true) && post.Some? && email.Undefined? && post.value.writerEmail.None? ==> show
    ensures email.Null? ==> !show
  {
    isAuthenticated == Some(true) && post.Some? && IsAuthor(post, email)
  }

  /** The post after a successful like request, given whether it was liked before. */
  function AfterLike(post: Option<Post>, wasLiked: bool): (r: Option<Post>)
    ensures r.Some? <==> post.Some?
    ensures post.Some? ==> r.value == post.value.(favoriteCount := post.value.favoriteCount + (if wasLiked then -1 else 1))
  {
    match post
    case None => None
    case Some(p) => Some(p.(favoriteCount := if wasLiked then p.favoriteCount - 1 else p.favoriteCount + 1))
  }

  /** Liking and then unliking restores the post. */
  lemma LikeTwiceRestores(post: Option<Post>, wasLiked: bool)
    ensures AfterLike(AfterLike(post, wasLiked), !wasLiked) == post
  {
  }

  /** What the join request ended with: success, or a failure with its HTTP status if any. */
  datatype JoinResult = Joined | JoinFailed(status: Option<int>)

  datatype ChatOpenOutcome =
    | ChatLoginRequired   // alert, then `/login`; no join call
    | InvalidRoom         // alert; no join call
    | JoinServerError     // the join answered 500: alert, modal stays closed
    | Opened              // the modal opens

  const InternalServerError := 500

  /** A join request is made exactly when the outcome is decided by its answer. */
  predicate JoinCalled(r: ChatOpenOutcome) {
    r == JoinServerError || r == Opened
  }

  /** `handleChatOpen`'s policy: only a 500 answer to the join request keeps the modal closed. */
  function ChatOpenDecision(isAuthenticated: Option<bool>, post: Option<Post>, join: JoinResult): (r: ChatOpenOutcome)
    ensures isAuthenticated != Some(true) ==> r == ChatLoginRequired
    ensures isAuthenticated == Some(true) && (post.None? || post.value.chatRoomId <= 0) ==> r == InvalidRoom
    ensures JoinCalled(r) <==> isAuthenticated == Some(true) && post.Some? && post.value.chatRoomId > 0
    ensures r == JoinServerError <==> JoinCalled(r) && join == JoinFailed(Some(InternalServerError))
    ensures r == Opened <==> JoinCalled(r) && join != JoinFailed(Some(InternalServerError))
  {
    if isAuthenticated != Some(true) then ChatLoginRequired
    else if post.None? || post.value.chatRoomId <= 0 then InvalidRoom
    else if join == JoinFailed(Some(InternalServerError)) then JoinServerError
    else Opened
  }

  /** A failed join other than a 500 (an already-joined 400 or 409, or no response) opens the modal like success. */
  lemma NonServerFailureOpens(post: Post, status: Option<int>)
    requires post.chatRoomId > 0 && status != Some(InternalServerError)
    ensures ChatOpenDecision(Some(true), Some(post), JoinFailed(status)) == ChatOpenDecision(Some(true), Some(post), Joined)
  {
  }

  datatype LikeOutcome = LikeLoginRequired | Toggled | LikeFailed

  /** The page's mutable state. */
  class BoardDetailView {
    var post: Option<Post>
    var isLiked: bool
    var isChatOpen: bool
    var currentImageIndex: int

    constructor()
      ensures post.None? && !isLiked && !isChatOpen && currentImageIndex == 0
    {
      post := None;
      isLiked := false;
      isChatOpen := false;
      currentImageIndex := 0;
    }

    /** The carousel index points at an image whenever the post has images. */
    predicate IndexInRange()
      reads this
    {
      post.Some? && |post.value.imageUrls| > 0 ==> 0 <= currentImageIndex < |post.value.imageUrls|
    }

    /** `handleLike`: an anonymous user is sent to log in; otherwise a successful request toggles. */
    method HandleLike(isAuthenticated: Option<bool>, requestOk: bool) returns (r: LikeOutcome)
      modifies this
      ensures isAuthenticated != Some(true) <==> r == LikeLoginRequired
      ensures r == Toggled <==> isAuthenticated == Some(true) && requestOk
      ensures r == Toggled ==> isLiked == !old(isLiked) && post == AfterLike(old(post), old(isLiked))
      ensures r != Toggled ==> isLiked == old(isLiked) && post == old(post)
      ensures isChatOpen == old(isChatOpen) && currentImageIndex == old(currentImageIndex)
    {
      if isAuthenticated != Some(true) {
        return LikeLoginRequired;
      }
      if !requestOk {
        return LikeFailed;
      }
      post := AfterLike(post, isLiked);
      isLiked := !isLiked;
      return Toggled;
    }

    method HandlePrevImage()
      modifies this
      ensures post.Some? ==> currentImageIndex == PrevIndex(old(currentImageIndex), |post.value.imageUrls|)
      ensures post.None? ==> currentImageIndex == old(currentImageIndex)
      ensures old(IndexInRange()) ==> IndexInRange()
      ensures post == old(post) && isLiked == old(isLiked) && isChatOpen == old(isChatOpen)
    {
      if post.Some? {
        currentImageIndex := PrevIndex(currentImageIndex, |post.value.imageUrls|);
      }
    }

    method HandleNextImage()
      modifies this
      ensures post.Some? ==> currentImageIndex == NextIndex(old(currentImageIndex), |post.value.imageUrls|)
      ensures post.None? ==> currentImageIndex == old(currentImageIndex)
      ensures old(IndexInRange()) ==> IndexInRange()
      ensures post == old(post) && isLiked == old(isLiked) && isChatOpen == old(isChatOpen)
    {
      if post.Some? {
        currentImageIndex := NextIndex(currentImageIndex, |post.value.imageUrls|);
      }
    }

    /** `handleChatOpen`: the modal opens exactly on the `Opened` outcome; nothing else changes. */
    method HandleChatOpen(isAuthenticated: Option<bool>, join: JoinResult) returns (r: ChatOpenOutcome)
      modifies this
      ensures r == ChatOpenDecision(isAuthenticated, old(post), join)
      ensures r == Opened ==> isChatOpen
      ensures r != Opened ==> isChatOpen == old(isChatOpen)
      ensures post == old(post) && isLiked == old(isLiked) && currentImageIndex == old(currentImageIndex)
    {
      if isAuthenticated != Some(true) {
        return ChatLoginRequired;
      }
      if post.None? || post.value.chatRoomId <= 0 {
        return InvalidRoom;
      }
      if join == JoinFailed(Some(InternalServerError)) {
        return JoinServerError;
      }
      isChatOpen := true;
      return Opened;
    }
  }
}

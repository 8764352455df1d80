/**
 * The MongoDB collections the repositories read and append to, held in
 * memory as sequences in insertion (natural) order.
 *
 * Every record carries the `_id` the store assigned it (a string, as the
 * repositories compare ids as strings) and the `createdAt` timestamp that
 * `{ timestamps: true }` sets on save.
 */
module Store {
  import opened Wrappers
  import opened Errors

  datatype User = User(
    id: string, username: string, firstName: string, lastName: string, email: string,
    password: string,                // the bcrypt hash, never the plain password
    refreshToken: Option<string>,
    accessToken: Option<string>)

  datatype Post = Post(id: string, title: string, photoURL: string, videoURL: string, userId: string, createdAt: int)

  datatype Comment = Comment(id: string, text: string, postId: string, userId: string, createdAt: int)

  datatype PostLike = PostLike(id: string, postId: string, userId: string, createdAt: int)

  datatype CommentLike = CommentLike(id: string, commentId: string, userId: string, createdAt: int)

  datatype Message = Message(id: string, fromUserId: string, toUserId: string, message: string, photoURL: string, createdAt: int)

  /** Why a call into the store rejected. */
  datatype StoreError =
    | MongoError(code: int)                        // a driver error, e.g. 11000 for a duplicate key
    | ValidationFailure(entries: seq<ErrorEntry>)  // a mongoose ValidationError
    | OtherFailure(message: string)                // any other Error, e.g. a plain mongoose Error

  const DuplicateKeyCode: int := 11000

  /** How a repository call fails: a GraphQL error it reports, or an error it rethrows as it came. */
  datatype Failure = Reported(error: GraphQLError) | Rethrown(cause: StoreError)

  /**
   * The `catch` block shared by createComment, likePost, likeComment and
   * messagesRepository.create: a ValidationError becomes getValidationError,
   * anything else is rethrown unchanged.
   */
  function CatchSaveError(e: StoreError): (f: Failure)
    ensures f.Reported? <==> e.ValidationFailure?
    ensures f.Reported? ==> f.error.code == MongoDBValidationFailed &&
                            f.error.errors.Some? && f.error.errors.value == GetValidationErrors(e.entries)
    ensures f.Reported? ==> f.error == GetValidationError(e.entries) && f.error.message == ValidationErrorMessage
    ensures f.Rethrown? ==> f.cause == e
  {
    if e.ValidationFailure? then Reported(GetValidationError(e.entries)) else Rethrown(e)
  }

  predicate UserExists(users: seq<User>, id: string)
  {
    exists u :: u in users && u.id == id
  }

  predicate PostExists(posts: seq<Post>, id: string)
  {
    exists p :: p in posts && p.id == id
  }

  predicate CommentExists(comments: seq<Comment>, id: string)
  {
    exists c :: c in comments && c.id == id
  }

  /** `PostLike.find({ postId, userId })` is not empty. */
  predicate PostLiked(likes: seq<PostLike>, postId: string, userId: string)
  {
    exists l :: l in likes && l.postId == postId && l.userId == userId
  }

  /** `CommentLike.find({ commentId, userId })` is not empty. */
  predicate CommentLiked(likes: seq<CommentLike>, commentId: string, userId: string)
  {
    exists l :: l in likes && l.commentId == commentId && l.userId == userId
  }

  /** At most one PostLike per (post, user) pair. */
  ghost predicate UniquePostLikes(likes: seq<PostLike>)
  {
    forall i, j :: 0 <= i < j < |likes| ==> !(likes[i].postId == likes[j].postId && likes[i].userId == likes[j].userId)
  }

  /** At most one CommentLike per (comment, user) pair. */
  ghost predicate UniqueCommentLikes(likes: seq<CommentLike>)
  {
    forall i, j :: 0 <= i < j < |likes| ==> !(likes[i].commentId == likes[j].commentId && likes[i].userId == likes[j].userId)
  }

  /** The unique index on `username`. */
  ghost predicate UniqueUsernames(users: seq<User>)
  {
    forall i, j :: 0 <= i < j < |users| ==> users[i].username != users[j].username
  }

  /** Appending a like for a pair that has none keeps the pairs unique. */
  lemma AppendPostLikeKeepsUnique(likes: seq<PostLike>, like: PostLike)
    requires UniquePostLikes(likes) && !PostLiked(likes, like.postId, like.userId)
    ensures UniquePostLikes(likes + [like])
  {
    var s := likes + [like];
    forall i, j | 0 <= i < j < |s| ensures !(s[i].postId == s[j].postId && s[i].userId == s[j].userId) {
      if j == |likes| {
        assert s[i] in likes;
      }
    }
  }

  /** Appending a comment like for a pair that has none keeps the pairs unique. */
  lemma AppendCommentLikeKeepsUnique(likes: seq<CommentLike>, like: CommentLike)
    requires UniqueCommentLikes(likes) && !CommentLiked(likes, like.commentId, like.userId)
    ensures UniqueCommentLikes(likes + [like])
  {
    var s := likes + [like];
    forall i, j | 0 <= i < j < |s| ensures !(s[i].commentId == s[j].commentId && s[i].userId == s[j].userId) {
      if j == |likes| {
        assert s[i] in likes;
      }
    }
  }

  class Database {
    var users: seq<User>
    var posts: seq<Post>
    var comments: seq<Comment>
    var postLikes: seq<PostLike>
    var commentLikes: seq<CommentLike>
    var messages: seq<Message>

    /**
     * The store's invariant: like pairs and usernames are unique, and every
     * user, post and comment has a non-empty ObjectId string.
     */
    ghost predicate Valid()
      reads this
    {
      && UniquePostLikes(postLikes)
      && UniqueCommentLikes(commentLikes)
      && UniqueUsernames(users)
      && (forall u :: u in users ==> u.id != "")
      && (forall p :: p in posts ==> p.id != "")
      && (forall c :: c in comments ==> c.id != "")
    }

    constructor ()
      ensures Valid()
      ensures users == [] && posts == [] && comments == []
      ensures postLikes == [] && commentLikes == [] && messages == []
    {
      users, posts, comments := [], [], [];
      postLikes, commentLikes, messages := [], [], [];
    }
  }
}

/**
 * server/repositories/postsRepository.ts: the guarded inserts createComment,
 * likePost and likeComment, and the comment page query getCommentsForPost.
 *
 * Each insert checks existence (and, for likes, uniqueness) in a fixed order
 * and rejects with a validation error naming the offending field; otherwise
 * it saves one record. A save that rejects is handled by Store.CatchSaveError.
 * `newId` is the `_id` the store assigns and `now` the `createdAt` it stamps.
 */
module PostsRepository {
  import opened Wrappers
  import opened Errors
  import opened Store
  import opened Pagination

  function PostNotFound(postId: string): (e: GraphQLError)
    ensures e.message == ValidationErrorMessage
    ensures e.code == MongoDBValidationFailed && e.errors == Some(map["postId" := "Post with id " + postId + " does not exist"])
  {
    GetCustomValidationError("postId", "Post with id " + postId + " does not exist")
  }

  function UserNotFound(userId: string): (e: GraphQLError)
    ensures e.message == ValidationErrorMessage
    ensures e.code == MongoDBValidationFailed && e.errors == Some(map["userId" := "User with id " + userId + " does not exist"])
  {
    GetCustomValidationError("userId", "User with id " + userId + " does not exist")
  }

  function CommentNotFound(commentId: string): (e: GraphQLError)
    ensures e.message == ValidationErrorMessage
    ensures e.code == MongoDBValidationFailed && e.errors == Some(map["commentId" := "Comment with id " + commentId + " does not exist"])
  {
    GetCustomValidationError("commentId", "Comment with id " + commentId + " does not exist")
  }

  function PostAlreadyLiked(postId: string): (e: GraphQLError)
    ensures e.message == ValidationErrorMessage
    ensures e.code == MongoDBValidationFailed && e.errors == Some(map["postId" := "Post with id " + postId + " is already liked"])
  {
    GetCustomValidationError("postId", "Post with id " + postId + " is already liked")
  }

  function CommentAlreadyLiked(commentId: string): (e: GraphQLError)
    ensures e.message == ValidationErrorMessage
    ensures e.code == MongoDBValidationFailed && e.errors == Some(map["commentId" := "Comment with id " + commentId + " is already liked"])
  {
    GetCustomValidationError("commentId", "Comment with id " + commentId + " is already liked")
  }

  /** The Comment schema's `required` message for an empty `text`. */
  const CommentTextRequired: string := "Comment text is required"

  /**
   * createComment: post exists, then user exists, then the comment is saved.
   * There is no duplicate check: a user may comment on a post any number of times.
   */
  method CreateComment(db: Database, text: string, postId: string, userId: string,
                       newId: string, now: int, saveFault: Option<StoreError>)
    returns (r: Result<Comment, Failure>)
    requires db.Valid() && newId != ""
    modifies db
    ensures db.Valid()
    ensures !PostExists(old(db.posts), postId) ==> r == Failure(Reported(PostNotFound(postId)))
    ensures PostExists(old(db.posts), postId) && !UserExists(old(db.users), userId) ==>
              r == Failure(Reported(UserNotFound(userId)))
    ensures PostExists(old(db.posts), postId) && UserExists(old(db.users), userId) && text == "" ==>
              r == Failure(Reported(GetValidationError([ValidatorError("text", CommentTextRequired)])))
    ensures PostExists(old(db.posts), postId) && UserExists(old(db.users), userId) && text != "" && saveFault.Some? ==>
              r == Failure(CatchSaveError(saveFault.value))
    ensures r.Success? <==> PostExists(old(db.posts), postId) && UserExists(old(db.users), userId) && text != "" && saveFault.None?
    ensures r.Success? ==> r.value == Comment(newId, text, postId, userId, now) && db.comments == old(db.comments) + [r.value]
    ensures r.Failure? ==> db.comments == old(db.comments)
    ensures db.users == old(db.users) && db.posts == old(db.posts) && db.postLikes == old(db.postLikes)
    ensures db.commentLikes == old(db.commentLikes) && db.messages == old(db.messages)
  {
    if !PostExists(db.posts, postId) {
      return Failure(Reported(PostNotFound(postId)));
    }
    if !UserExists(db.users, userId) {
      return Failure(Reported(UserNotFound(userId)));
    }
    if text == "" {
      return Failure(CatchSaveError(ValidationFailure([ValidatorError("text", CommentTextRequired)])));
    }
    if saveFault.Some? {
      return Failure(CatchSaveError(saveFault.value));
    }
    var comment := Comment(newId, text, postId, userId, now);
    db.comments := db.comments + [comment];
    r := Success(comment);
  }

  /**
   * likePost: post exists, then user exists, then the pair is not yet liked;
   * on success exactly one PostLike is appended and nothing else changes.
   */
  method LikePost(db: Database, postId: string, userId: string,
                  newId: string, now: int, saveFault: Option<StoreError>)
    returns (r: Result<PostLike, Failure>)
    requires db.Valid()
    modifies db
    ensures db.Valid()
    ensures !PostExists(old(db.posts), postId) ==> r == Failure(Reported(PostNotFound(postId)))
    ensures PostExists(old(db.posts), postId) && !UserExists(old(db.users), userId) ==>
              r == Failure(Reported(UserNotFound(userId)))
    ensures PostExists(old(db.posts), postId) && UserExists(old(db.users), userId) && PostLiked(old(db.postLikes), postId, userId) ==>
              r == Failure(Reported(PostAlreadyLiked(postId)))
    ensures PostExists(old(db.posts), postId) && UserExists(old(db.users), userId) && !PostLiked(old(db.postLikes), postId, userId) && saveFault.Some? ==>
              r == Failure(CatchSaveError(saveFault.value))
    ensures r.Success? <==>
              PostExists(old(db.posts), postId) && UserExists(old(db.users), userId) &&
              !PostLiked(old(db.postLikes), postId, userId) && saveFault.None?
    ensures r.Success? ==> r.value == PostLike(newId, postId, userId, now) && db.postLikes == old(db.postLikes) + [r.value]
    ensures r.Failure? ==> db.postLikes == old(db.postLikes)
    ensures db.users == old(db.users) && db.posts == old(db.posts) && db.comments == old(db.comments)
    ensures db.commentLikes == old(db.commentLikes) && db.messages == old(db.messages)
  {
    if !PostExists(db.posts, postId) {
      return Failure(Reported(PostNotFound(postId)));
    }
    if !UserExists(db.users, userId) {
      return Failure(Reported(UserNotFound(userId)));
    }
    if PostLiked(db.postLikes, postId, userId) {
      return Failure(Reported(PostAlreadyLiked(postId)));
    }
    if saveFault.Some? {
      return Failure(CatchSaveError(saveFault.value));
    }
    var like := PostLike(newId, postId, userId, now);
    AppendPostLikeKeepsUnique(db.postLikes, like);
    db.postLikes := db.postLikes + [like];
    r := Success(like);
  }

  /**
   * likeComment: comment exists, then user exists, then the pair is not yet
   * liked; on success exactly one CommentLike is appended and nothing else changes.
   */
  method LikeComment(db: Database, commentId: string, userId: string,
                     newId: string, now: int, saveFault: Option<StoreError>)
    returns (r: Result<CommentLike, Failure>)
    requires db.Valid()
    modifies db
    ensures db.Valid()
    ensures !CommentExists(old(db.comments), commentId) ==> r == Failure(Reported(CommentNotFound(commentId)))
    ensures CommentExists(old(db.comments), commentId) && !UserExists(old(db.users), userId) ==>
              r == Failure(Reported(UserNotFound(userId)))
    ensures CommentExists(old(db.comments), commentId) && UserExists(old(db.users), userId) && CommentLiked(old(db.commentLikes), commentId, userId) ==>
              r == Failure(Reported(CommentAlreadyLiked(commentId)))
    ensures CommentExists(old(db.comments), commentId) && UserExists(old(db.users), userId) && !CommentLiked(old(db.commentLikes), commentId, userId) && saveFault.Some? ==>
              r == Failure(CatchSaveError(saveFault.value))
    ensures r.Success? <==>
              CommentExists(old(db.comments), commentId) && UserExists(old(db.users), userId) &&
              !CommentLiked(old(db.commentLikes), commentId, userId) && saveFault.None?
    ensures r.Success? ==> r.value == CommentLike(newId, commentId, userId, now) && db.commentLikes == old(db.commentLikes) + [r.value]
    ensures r.Failure? ==> db.commentLikes == old(db.commentLikes)
    ensures db.users == old(db.users) && db.posts == old(db.posts) && db.comments == old(db.comments)
    ensures db.postLikes == old(db.postLikes) && db.messages == old(db.messages)
  {
    if !CommentExists(db.comments, commentId) {
      return Failure(Reported(CommentNotFound(commentId)));
    }
    if !UserExists(db.users, userId) {
      return Failure(Reported(UserNotFound(userId)));
    }
    if CommentLiked(db.commentLikes, commentId, userId) {
      return Failure(Reported(CommentAlreadyLiked(commentId)));
    }
    if saveFault.Some? {
      return Failure(CatchSaveError(saveFault.value));
    }
    var like := CommentLike(newId, commentId, userId, now);
    AppendCommentLikeKeepsUnique(db.commentLikes, like);
    db.commentLikes := db.commentLikes + [like];
    r := Success(like);
  }

  // ---------------------------------------------------------------------
  // getCommentsForPost
  // ---------------------------------------------------------------------

  /** A comment as the aggregation's `$project` stage leaves it. */
  datatype CommentRow = CommentRow(id: string, text: string, postId: string, userId: string, createdAt: int, likesCount: nat)

  /** A comment as the query returns it, with `userId` populated into `user` (None if no such user). */
  datatype CommentView = CommentView(id: string, text: string, postId: string, user: Option<User>, createdAt: int, likesCount: nat)

  /** `$match: { postId }`, keeping the collection's order. */
  function CommentsOfPost(comments: seq<Comment>, postId: string): (r: seq<Comment>)
    ensures forall c :: c in r <==> c in comments && c.postId == postId
    ensures |r| <= |comments|
  {
    if |comments| == 0 then []
    else
      assert comments == [comments[0]] + comments[1..];
      (if comments[0].postId == postId then [comments[0]] else []) + CommentsOfPost(comments[1..], postId)
  }

  /**
   * `$match` neither drops nor duplicates: a comment of the post occurs as
   * often as in the collection, any other comment not at all.
   */
  lemma {:induction false} CommentsOfPostMultiplicity(comments: seq<Comment>, postId: string, c: Comment)
    ensures multiset(CommentsOfPost(comments, postId))[c] == if c.postId == postId then multiset(comments)[c] else 0
  {
    if |comments| > 0 {
      assert comments == [comments[0]] + comments[1..];
      CommentsOfPostMultiplicity(comments[1..], postId, c);
    }
  }

  /** The number of CommentLike records whose `commentId` is `commentId` (`$lookup`, then `$size`). */
  function LikesCount(likes: seq<CommentLike>, commentId: string): (n: nat)
    ensures n <= |likes|
  {
    if |likes| == 0 then 0
    else (if likes[0].commentId == commentId then 1 else 0) + LikesCount(likes[1..], commentId)
  }

  /** The like count is the number of times `commentId` occurs among the likes' comment ids. */
  lemma {:induction false} LikesCountIsMultiplicity(likes: seq<CommentLike>, commentId: string)
    ensures LikesCount(likes, commentId) == multiset(Map((l: CommentLike) => l.commentId, likes))[commentId]
  {
    if |likes| > 0 {
      var ids := Map((l: CommentLike) => l.commentId, likes);
      assert ids == [likes[0].commentId] + Map((l: CommentLike) => l.commentId, likes[1..]);
      LikesCountIsMultiplicity(likes[1..], commentId);
    }
  }

  /** A new like raises the count of its own comment by one and no other comment's. */
  lemma {:induction false} LikesCountAppend(likes: seq<CommentLike>, like: CommentLike, commentId: string)
    ensures LikesCount(likes + [like], commentId) == LikesCount(likes, commentId) + (if like.commentId == commentId then 1 else 0)
  {
    if |likes| > 0 {
      assert (likes + [like])[1..] == likes[1..] + [like];
      LikesCountAppend(likes[1..], like, commentId);
    }
  }

  /** `$addFields`, `$lookup` and `$project` for one comment. */
  function ToRow(c: Comment, likes: seq<CommentLike>): (row: CommentRow)
    ensures row.id == c.id && row.text == c.text && row.postId == c.postId && row.userId == c.userId
    ensures row.createdAt == c.createdAt && row.likesCount == LikesCount(likes, c.id)
  {
    CommentRow(c.id, c.text, c.postId, c.userId, c.createdAt, LikesCount(likes, c.id))
  }

  /** The projection of every comment, in order. */
  function RowsOf(comments: seq<Comment>, likes: seq<CommentLike>): (rows: seq<CommentRow>)
    ensures |rows| == |comments|
    ensures forall i :: 0 <= i < |comments| ==> rows[i] == ToRow(comments[i], likes)
  {
    seq(|comments|, i requires 0 <= i < |comments| => ToRow(comments[i], likes))
  }

  /** The final `map` over a page of rows, in order. */
  function ViewsOf(rows: seq<CommentRow>, users: seq<User>): (views: seq<CommentView>)
    ensures |views| == |rows|
    ensures forall i :: 0 <= i < |rows| ==> views[i] == ToView(rows[i], users)
  {
    seq(|rows|, i requires 0 <= i < |rows| => ToView(rows[i], users))
  }

  predicate SortedByCreatedAt(rows: seq<CommentRow>)
  {
    forall i, j :: 0 <= i < j < |rows| ==> rows[i].createdAt <= rows[j].createdAt
  }

  /** A row no later than every row of a sorted list can go in front of it. */
  lemma PrependSorted(y: CommentRow, rows: seq<CommentRow>)
    requires SortedByCreatedAt(rows)
    requires forall i :: 0 <= i < |rows| ==> y.createdAt <= rows[i].createdAt
    ensures SortedByCreatedAt([y] + rows)
  {
    var s := [y] + rows;
    forall i, j | 0 <= i < j < |s| ensures s[i].createdAt <= s[j].createdAt {
      assert s[j] == rows[j - 1];
      if i > 0 { assert s[i] == rows[i - 1]; }
    }
  }

  function Insert(x: CommentRow, rows: seq<CommentRow>): (r: seq<CommentRow>)
    requires SortedByCreatedAt(rows)
    ensures SortedByCreatedAt(r)
    ensures multiset(r) == multiset(rows) + multiset{x}
  {
    if |rows| == 0 then [x]
    else if x.createdAt <= rows[0].createdAt then
      PrependSorted(x, rows);
      [x] + rows
    else
      var rest := Insert(x, rows[1..]);
      assert rows == [rows[0]] + rows[1..];
      assert forall i :: 0 <= i < |rest| ==> rows[0].createdAt <= rest[i].createdAt by {
        forall i | 0 <= i < |rest| ensures rows[0].createdAt <= rest[i].createdAt {
          assert rest[i] in multiset(rest);
          assert rest[i] == x || rest[i] in multiset(rows[1..]);
        }
      }
      PrependSorted(rows[0], rest);
      [rows[0]] + rest
  }

  /** `$sort: { createdAt: 1 }`: ascending and a permutation (the order of equal timestamps is not specified). */
  function SortByCreatedAt(rows: seq<CommentRow>): (r: seq<CommentRow>)
    ensures SortedByCreatedAt(r)
    ensures multiset(r) == multiset(rows)
  {
    if |rows| == 0 then []
    else
      assert rows == [rows[0]] + rows[1..];
      Insert(rows[0], SortByCreatedAt(rows[1..]))
  }

  /** `Comment.populate(..., 'userId')`: the first user with that id, if any. */
  function FindUser(users: seq<User>, id: string): (r: Option<User>)
    ensures r.Some? ==> r.value in users && r.value.id == id
    ensures r.None? <==> !UserExists(users, id)
  {
    if |users| == 0 then None
    else if users[0].id == id then Some(users[0])
    else FindUser(users[1..], id)
  }

  /** The final `map` that renames the populated `userId` to `user`. */
  function ToView(row: CommentRow, users: seq<User>): (v: CommentView)
    ensures v.id == row.id && v.text == row.text && v.postId == row.postId
    ensures v.createdAt == row.createdAt && v.likesCount == row.likesCount
    ensures v.user.Some? <==> UserExists(users, row.userId)
    ensures v.user.Some? ==> v.user.value in users && v.user.value.id == row.userId
  {
    CommentView(row.id, row.text, row.postId, FindUser(users, row.userId), row.createdAt, row.likesCount)
  }

  /** Every matching comment, projected and sorted: the list `$facet` counts and pages. */
  function SortedRows(comments: seq<Comment>, likes: seq<CommentLike>, postId: string): (rows: seq<CommentRow>)
    ensures |rows| == |CommentsOfPost(comments, postId)|
    ensures SortedByCreatedAt(rows)
    ensures multiset(rows) == multiset(RowsOf(CommentsOfPost(comments, postId), likes))
  {
    var matching := RowsOf(CommentsOfPost(comments, postId), likes);
    var sorted := SortByCreatedAt(matching);
    assert |sorted| == |multiset(sorted)| == |multiset(matching)| == |matching|;
    sorted
  }

  /** Why the query as written fails: `metadata[0]` is undefined, so reading `.count` throws. */
  datatype QueryError = TypeError(message: string)

  /**
   * getCommentsForPost AS WRITTEN: `$count` emits no document for an empty
   * input, so `metadata` is `[]` and `aggregateData[0].metadata[0].count`
   * throws whenever the post has no comments.
   */
  function GetCommentsForPostAsWritten(comments: seq<Comment>, likes: seq<CommentLike>, users: seq<User>,
                                       postId: string, offset: nat, limit: nat): (r: Result<Page<CommentView>, QueryError>)
    requires limit > 0
    ensures r.Failure? <==> CommentsOfPost(comments, postId) == []
  {
    var rows := SortedRows(comments, likes, postId);
    if |rows| == 0 then
      Failure(TypeError("Cannot read properties of undefined (reading 'count')"))
    else
      Success(CommentPage(rows, users, offset, limit))
  }

  /** A post without comments makes the query as written throw instead of returning an empty page. */
  lemma AsWrittenFailsWithoutComments(comments: seq<Comment>, likes: seq<CommentLike>, users: seq<User>,
                                      postId: string, offset: nat, limit: nat)
    requires limit > 0
    requires forall c :: c in comments ==> c.postId != postId
    ensures GetCommentsForPostAsWritten(comments, likes, users, postId, offset, limit).Failure?
  {
    NoCommentOfPost(comments, postId);
  }

  /** No comment refers to the post, so the `$match` stage keeps nothing. */
  lemma {:induction false} NoCommentOfPost(comments: seq<Comment>, postId: string)
    requires forall c :: c in comments ==> c.postId != postId
    ensures CommentsOfPost(comments, postId) == []
  {
    if |comments| > 0 {
      assert comments[0] in comments;
      NoCommentOfPost(comments[1..], postId);
    }
  }

  /** `$facet` over the sorted rows, then the final `map`: the page that skips `offset` rows and keeps at most `limit`. */
  function CommentPage(rows: seq<CommentRow>, users: seq<User>, offset: nat, limit: nat): (r: Page<CommentView>)
    ensures r.total == |rows|
    ensures |r.data| == Min(limit, Max(0, |rows| - offset))
    ensures forall i :: 0 <= i < |r.data| ==> r.data[i] == ToView(rows[offset + i], users)
    ensures SortedByCreatedAt(rows) ==> forall i, j :: 0 <= i < j < |r.data| ==> r.data[i].createdAt <= r.data[j].createdAt
  {
    var r := Page(|rows|, ViewsOf(Paginate(rows, offset, limit).data, users));
    assert forall i :: 0 <= i < |r.data| ==> r.data[i].createdAt == rows[offset + i].createdAt;
    r
  }

  /**
   * getCommentsForPost, with `total` read as 0 when `$count` emits nothing:
   * the page of the post's comments sorted by `createdAt`, each with its
   * like count and its author.
   */
  function GetCommentsForPost(comments: seq<Comment>, likes: seq<CommentLike>, users: seq<User>,
                              postId: string, offset: nat, limit: nat): (r: Page<CommentView>)
    requires limit > 0
    ensures r.total == |CommentsOfPost(comments, postId)|
    ensures |r.data| == Min(limit, Max(0, r.total - offset))
    ensures forall i :: 0 <= i < |r.data| ==> r.data[i] == ToView(SortedRows(comments, likes, postId)[offset + i], users)
    ensures forall i, j :: 0 <= i < j < |r.data| ==> r.data[i].createdAt <= r.data[j].createdAt
    ensures CommentsOfPost(comments, postId) == [] ==> r == Page(0, [])
  {
    CommentPage(SortedRows(comments, likes, postId), users, offset, limit)
  }

  /** Each sorted row is the projection of a stored comment of the post. */
  lemma SortedRowComesFromComment(comments: seq<Comment>, likes: seq<CommentLike>, postId: string, k: nat)
    requires k < |SortedRows(comments, likes, postId)|
    ensures var row := SortedRows(comments, likes, postId)[k];
            && row.postId == postId && row.likesCount == LikesCount(likes, row.id)
            && exists c :: c in comments && c.id == row.id && c.text == row.text && c.postId == postId && c.createdAt == row.createdAt
  {
    var rows := SortedRows(comments, likes, postId);
    var row := rows[k];
    assert row in multiset(rows);
    var matching := RowsOf(CommentsOfPost(comments, postId), likes);
    assert row in matching;
    var m :| 0 <= m < |matching| && matching[m] == row;
    var c := CommentsOfPost(comments, postId)[m];
    assert c in CommentsOfPost(comments, postId);
  }

  /**
   * Every entry of a page is a stored comment of the post, carrying that
   * comment's like count.
   */
  lemma CommentPageEntriesComeFromPost(comments: seq<Comment>, likes: seq<CommentLike>, users: seq<User>,
                                       postId: string, offset: nat, limit: nat, i: nat)
    requires limit > 0
    requires i < |GetCommentsForPost(comments, likes, users, postId, offset, limit).data|
    ensures var v := GetCommentsForPost(comments, likes, users, postId, offset, limit).data[i];
            && v.postId == postId && v.likesCount == LikesCount(likes, v.id)
            && exists c :: c in comments && c.id == v.id && c.text == v.text && c.postId == postId && c.createdAt == v.createdAt
  {
    var row := SortedRows(comments, likes, postId)[offset + i];
    assert GetCommentsForPost(comments, likes, users, postId, offset, limit).data[i] == ToView(row, users);
    SortedRowComesFromComment(comments, likes, postId, offset + i);
  }

  /** The result does not depend on the window: `total` is the same for every offset and limit. */
  lemma TotalIgnoresWindow(comments: seq<Comment>, likes: seq<CommentLike>, users: seq<User>,
                           postId: string, offset1: nat, limit1: nat, offset2: nat, limit2: nat)
    requires limit1 > 0 && limit2 > 0
    ensures GetCommentsForPost(comments, likes, users, postId, offset1, limit1).total
            == GetCommentsForPost(comments, likes, users, postId, offset2, limit2).total
  {
  }

  /** Where the query as written does not throw, it agrees with the corrected query. */
  lemma AsWrittenAgreesWhenItSucceeds(comments: seq<Comment>, likes: seq<CommentLike>, users: seq<User>,
                                      postId: string, offset: nat, limit: nat)
    requires limit > 0
    requires CommentsOfPost(comments, postId) != []
    ensures GetCommentsForPostAsWritten(comments, likes, users, postId, offset, limit)
            == Success(GetCommentsForPost(comments, likes, users, postId, offset, limit))
  {
  }

  /**
   * Scrolling: two consecutive requests return the entries of one request
   * spanning both, over one fixed sorted order (see the README, Left out).
   */
  lemma {:induction false} CommentPagesConcatenate(comments: seq<Comment>, likes: seq<CommentLike>, users: seq<User>,
                                                   postId: string, offset: nat, first: nat, second: nat)
    requires first > 0 && second > 0
    ensures GetCommentsForPost(comments, likes, users, postId, offset, first).data
            + GetCommentsForPost(comments, likes, users, postId, offset + first, second).data
            == GetCommentsForPost(comments, likes, users, postId, offset, first + second).data
  {
    var rows := SortedRows(comments, likes, postId);
    ConsecutivePages(rows, offset, first, second);
    var a, b := Paginate(rows, offset, first).data, Paginate(rows, offset + first, second).data;
    assert ViewsOf(a + b, users) == ViewsOf(a, users) + ViewsOf(b, users);
  }

  /** A first page whose limit covers every comment holds each of the post's comments. */
  lemma FirstPageHoldsEveryComment(comments: seq<Comment>, likes: seq<CommentLike>, users: seq<User>,
                                   postId: string, limit: nat, c: Comment)
    requires limit > 0 && limit >= |CommentsOfPost(comments, postId)|
    requires c in comments && c.postId == postId
    ensures exists v :: v in GetCommentsForPost(comments, likes, users, postId, 0, limit).data &&
                        v.id == c.id && v.text == c.text && v.createdAt == c.createdAt
  {
    var k := SortedRowOfComment(comments, likes, postId, c);
    var data := GetCommentsForPost(comments, likes, users, postId, 0, limit).data;
    assert data[k] == ToView(SortedRows(comments, likes, postId)[k], users);
  }

  /** A stored comment of the post has its projection among the sorted rows. */
  lemma SortedRowOfComment(comments: seq<Comment>, likes: seq<CommentLike>, postId: string, c: Comment)
    returns (k: nat)
    requires c in comments && c.postId == postId
    ensures k < |SortedRows(comments, likes, postId)| && SortedRows(comments, likes, postId)[k] == ToRow(c, likes)
  {
    var rows := SortedRows(comments, likes, postId);
    var matching := RowsOf(CommentsOfPost(comments, postId), likes);
    assert c in CommentsOfPost(comments, postId);
    var m :| 0 <= m < |CommentsOfPost(comments, postId)| && CommentsOfPost(comments, postId)[m] == c;
    assert matching[m] in multiset(rows);
    k :| 0 <= k < |rows| && rows[k] == matching[m];
  }
}

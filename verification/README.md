# socialley-server core, modelled in Dafny

This project models the server-side core of the socialley social network. It covers three groups of operations:

- **Repository operations that change the MongoDB store:**
  - commenting on a post and liking posts and comments (`postsRepository`);
  - sending a message (`messagesRepository`);
  - signing up and logging in (`userRepository`).
- **Pure logic around them:**
  - the comment page query;
  - the Message schema's validation rules;
  - bearer-token parsing and refresh-cookie options;
  - the helpers that turn mongoose errors into GraphQL errors.
- **The paginated user resolvers** (`graphql/queries/user.ts`). Each one builds `{ total, data }` pages and clears its DataLoader cache on the first page.

The store is the class `Store.Database`. It holds one sequence per collection in insertion order. A successful repository method appends one record to it, except login, which replaces one user record; a failed call leaves it unchanged. Its invariant `Valid()` says three things:

- at most one like exists per (post, user) and per (comment, user);
- usernames are unique;
- every stored user, post and comment has a non-empty id.

Every method keeps this invariant. Ids are strings. Several values are parameters rather than generated inside the model:

- the `_id` the store assigns (`newId`);
- the `createdAt` it stamps (`now`);
- a fault the store or a foreign library reports (`saveFault`, `saveFails`);
- bcrypt (`hash`, `compare`);
- `jwt.sign` and `jwt.verify` (`sign`, `verify`).

A field that JavaScript treats as falsy, whether absent or `""`, is modelled as `""`.

The files, by module:

- `wrappers.dfy`: `Option` and `Result`.
- `errors.dfy`: `utils/errors/index.ts` (`Errors`) and `server/utils/errors/index.ts` (`ServerErrors`).
- `store.dfy`: the records, store errors, the shared `catch` block and `Database`.
- `message_model.dfy`: `server/models/Message.ts`.
- `token.dfy`: `server/utils/token/index.ts`.
- `pagination.dfy`: the `{ total, data }` page and JavaScript's `slice` and `map`.
- `posts_repository.dfy`: `server/repositories/postsRepository.ts`.
- `messages_repository.dfy`: `server/repositories/messagesRepository.ts`.
- `user_repository.dfy`: `server/repositories/userRepository.ts`.
- `user_queries.dfy`: `graphql/queries/user.ts`.

The repositories import `getCustomValidationError` from `server/utils`, whose index file is not part of this model. `server/utils/errors/index.ts` defines the same construction under the name `getUniqueValidationError`. The model uses `Errors.GetCustomValidationError` throughout and proves that the server-side helpers agree with it (`ServerErrors.AgreesWithSharedHelpers`).

## Model

| member | source | states |
|---|---|---|
| Errors.FoldKeys | utils/errors/index.ts:9-19 | a path is a key of the fold's map exactly when some ValidatorError entry has that path |
| Errors.FoldLastWins | utils/errors/index.ts:12-17 | for a path named by several ValidatorErrors, the map holds the message of the last one |
| Errors.FoldMeaning | utils/errors/index.ts:9-19 | both facts for all paths: the keys are exactly the validator paths, and the last message wins |
| Errors.FoldIgnoresNonValidators | utils/errors/index.ts:11-18 | dropping every entry that is not a ValidatorError leaves the map unchanged |
| Errors.FoldConcat | utils/errors/index.ts:9-19 | folding `a + b` gives `a`'s map overridden by `b`'s; the fold of no entries is the empty map |
| Errors.GetValidationErrors | utils/errors/index.ts:9-19 | an error without entries gives the empty map, the fold's starting value `{}` |
| Errors.FoldSize | utils/errors/index.ts:10-18 | every entry adds at most one key, so the map has no more keys than the error has entries |
| Errors.HasValidatorSnoc | utils/errors/index.ts:10-18 | appending one entry adds a validator path exactly when that entry is a ValidatorError with that path |
| Errors.GetValidationError | utils/errors/index.ts:27-34 | message "Validation error", code MONGODB_VALIDATION_FAILED, and an error map whose keys are exactly the validator paths, each with the message of its last entry |
| Errors.GetCustomValidationError | utils/errors/index.ts:36-43 | message "Validation error", code MONGODB_VALIDATION_FAILED, and exactly the one-entry map `{path: message}` |
| Errors.CustomIsSingleValidator | utils/errors/index.ts:27-43 | a custom validation error equals the validation error of a single ValidatorError for that path and message |
| Errors.GetMongoDBServerError | utils/errors/index.ts:45-51 | carries the given message, code MONGODB_SERVER_ERROR and no error map |
| Errors.GetInvalidSessionError | utils/errors/index.ts:53-59 | message "Invalid session", code INVALID_SESSION and no error map |
| Errors.CodesSeparateKinds | utils/errors/index.ts:21-25 | both validation helpers share one code, and that code differs from the server-error and invalid-session codes, which differ from each other |
| ServerErrors.GetValidationError | server/utils/errors/index.ts:26-33 | the same code, key set and last-wins messages as the client helper; an error with no entries gives the empty map |
| ServerErrors.GetUniqueValidationError | server/utils/errors/index.ts:35-42 | code MONGODB_VALIDATION_FAILED and exactly `{path: message}` |
| ServerErrors.GetMongoDBServerError | server/utils/errors/index.ts:44-50 | the given message, code MONGODB_SERVER_ERROR, no error map |
| ServerErrors.AgreesWithSharedHelpers | server/utils/errors/index.ts:9-50 | each server helper equals its counterpart in utils/errors; none ever yields INVALID_SESSION, so this version has only two codes |
| Store.CatchSaveError | server/repositories/postsRepository.ts:113-119 | a ValidationError is reported as getValidationError of its entries: message "Validation error", code MONGODB_VALIDATION_FAILED and exactly the fold's map; any other error is rethrown unchanged |
| Store.AppendPostLikeKeepsUnique | server/repositories/postsRepository.ts:104-112 | appending a like for a (post, user) pair that has none keeps every pair unique |
| Store.AppendCommentLikeKeepsUnique | server/repositories/postsRepository.ts:137-145 | appending a comment like for a pair that has none keeps every pair unique |
| Store.Database.constructor | server/models/Comment.ts:4-19 | a new store holds no user, post, comment, like or message and satisfies `Valid()`: unique like pairs, unique usernames and non-empty user, post and comment ids. There is one sequence per collection, mirroring the schemas of server/models/Post.ts, Comment.ts, PostLike.ts, CommentLike.ts and Message.ts and of the User model; the User model's file is not part of this model |
| PostsRepository.PostNotFound | server/repositories/postsRepository.ts:67 | a "Validation error" with code MONGODB_VALIDATION_FAILED on `postId` whose one message is "Post with id <postId> does not exist" |
| PostsRepository.UserNotFound | server/repositories/postsRepository.ts:71 | a "Validation error" with code MONGODB_VALIDATION_FAILED on `userId` whose one message is "User with id <userId> does not exist" |
| PostsRepository.CommentNotFound | server/repositories/postsRepository.ts:130 | a "Validation error" with code MONGODB_VALIDATION_FAILED on `commentId` whose one message is "Comment with id <commentId> does not exist" |
| PostsRepository.PostAlreadyLiked | server/repositories/postsRepository.ts:105 | a "Validation error" with code MONGODB_VALIDATION_FAILED on `postId` whose one message is "Post with id <postId> is already liked" |
| PostsRepository.CommentAlreadyLiked | server/repositories/postsRepository.ts:138 | a "Validation error" with code MONGODB_VALIDATION_FAILED on `commentId` whose one message is "Comment with id <commentId> is already liked" |
| PostsRepository.CreateComment | server/repositories/postsRepository.ts:64-87 | checks the post, then the user; an empty text is reported by the schema's `required` rule; a failed save goes through the catch block; otherwise exactly one Comment is appended, with no duplicate check, and the other collections are unchanged |
| PostsRepository.LikePost | server/repositories/postsRepository.ts:94-120 | checks in order: post exists (`postId` error), user exists (`userId` error), not yet liked ("already liked" on `postId`); succeeds exactly when all hold and the save does; then it appends exactly one PostLike(postId, userId), keeps like pairs unique and changes nothing else |
| PostsRepository.LikeComment | server/repositories/postsRepository.ts:127-153 | the same order of checks for a comment, with `commentId` errors; on success exactly one CommentLike is appended and the pairs stay unique |
| PostsRepository.CommentsOfPost | server/repositories/postsRepository.ts:157-159 | a comment is kept exactly when it is stored and has the requested postId; no more comments than stored |
| PostsRepository.CommentsOfPostMultiplicity | server/repositories/postsRepository.ts:157-159 | the match neither drops nor duplicates: each comment of the post occurs as often as in the collection, any other comment not at all |
| PostsRepository.LikesCount | server/repositories/postsRepository.ts:161-178 | the count never exceeds the number of likes |
| PostsRepository.LikesCountIsMultiplicity | server/repositories/postsRepository.ts:161-178 | `$size` of the looked-up likes is the number of times the comment id occurs among the likes' `commentId`s |
| PostsRepository.LikesCountAppend | server/repositories/postsRepository.ts:161-178 | a new like raises its own comment's count by one and leaves every other comment's count unchanged |
| PostsRepository.ToRow | server/repositories/postsRepository.ts:160-179 | the row keeps the comment's id, text, postId, userId and createdAt, and its likesCount is the comment's like count |
| PostsRepository.RowsOf | server/repositories/postsRepository.ts:160-179 | one row per comment, in order, each the projection of its comment |
| PostsRepository.Insert | server/repositories/postsRepository.ts:181-185 | inserting into a createdAt-sorted list keeps it sorted and adds exactly that row |
| PostsRepository.SortByCreatedAt | server/repositories/postsRepository.ts:181-185 | the result is in non-decreasing createdAt order and is a permutation of the input |
| PostsRepository.FindUser | server/repositories/postsRepository.ts:200 | populating `userId` finds a user with that id exactly when one exists |
| PostsRepository.ToView | server/repositories/postsRepository.ts:200-218 | the view keeps the row's id, text, postId, createdAt and likesCount; `user` is present exactly when a user with the row's userId exists, and is then such a stored user |
| PostsRepository.ViewsOf | server/repositories/postsRepository.ts:211-218 | one view per row, in order, each the view of its row |
| PostsRepository.SortedRows | server/repositories/postsRepository.ts:156-185 | the projected rows of the post's comments, sorted by createdAt and a permutation of them |
| PostsRepository.GetCommentsForPostAsWritten | server/repositories/postsRepository.ts:186-219 | as written, the query fails exactly when the post has no comments |
| PostsRepository.NoCommentOfPost | server/repositories/postsRepository.ts:157-159 | when no comment refers to the post, the match stage keeps nothing |
| PostsRepository.AsWrittenFailsWithoutComments | server/repositories/postsRepository.ts:209-210 | a post that no comment refers to makes the query as written throw |
| PostsRepository.CommentPage | server/repositories/postsRepository.ts:186-218 | total is the number of rows; data has `min(limit, max(0, total - offset))` items, item i being the view of row `offset + i`; sorted rows give a page in createdAt order |
| PostsRepository.GetCommentsForPost | server/repositories/postsRepository.ts:155-220 | total is the number of the post's comments; data has `min(limit, max(0, total - offset))` items, and item i is the view (text, author and all) of sorted row `offset + i`, so the page skips `offset` rows and keeps at most `limit`; data is in createdAt order; no comments gives `{0, []}` |
| PostsRepository.SortedRowComesFromComment | server/repositories/postsRepository.ts:157-185 | every sorted row has the requested postId, the like count of its comment id, and a stored comment of the post with the same id, text and createdAt behind it |
| PostsRepository.CommentPageEntriesComeFromPost | server/repositories/postsRepository.ts:155-220 | every entry of a page has the requested postId and its exact like count, and is a stored comment of the post with the same id, text and createdAt |
| PostsRepository.CommentPagesConcatenate | server/repositories/postsRepository.ts:186-197 | two consecutive requests (`offset`, `first`) and (`offset + first`, `second`) over one fixed sorted order return the entries of the one request spanning both; this holds only where both requests see ties in `createdAt` in the same order (see Left out) |
| PostsRepository.TotalIgnoresWindow | server/repositories/postsRepository.ts:186-197 | total is the same for every offset and limit |
| PostsRepository.AsWrittenAgreesWhenItSucceeds | server/repositories/postsRepository.ts:209-219 | wherever the query as written does not throw, it returns the corrected page |
| PostsRepository.FirstPageHoldsEveryComment | server/repositories/postsRepository.ts:186-197 | a first page whose limit covers all comments contains every comment of the post |
| PostsRepository.SortedRowOfComment | server/repositories/postsRepository.ts:157-185 | every stored comment of the post has its projection among the sorted rows |
| Pagination.Slice | graphql/queries/user.ts:125 | `slice(start, end)` has `max(0, min(end, n) - min(start, n))` elements, and element i is input element `start + i` |
| Pagination.Paginate | graphql/queries/user.ts:125-126 | total is the list length; data has `min(limit, max(0, total - offset))` items, and item i is list item `offset + i` |
| Pagination.Map | graphql/queries/user.ts:118 | `map` keeps the length and applies the function at each index |
| Pagination.MapCommutesWithPaginate | graphql/queries/user.ts:118-125 | mapping then slicing gives the same page as slicing then mapping |
| Pagination.ConsecutivePages | graphql/queries/user.ts:125 | the pages at `offset` with `first` items and at `offset + first` with `second` items concatenate to the page with `first + second` items |
| Pagination.FirstPageCoversAll | graphql/queries/user.ts:125 | a page from offset 0 whose limit covers the list is the whole list |
| UserQueries.ToSuggestedUser | graphql/queries/user.ts:118-124 | a suggested user is never marked as followed; user, latestFollower and followedCount pass through |
| UserQueries.FromFollowing | graphql/queries/user.ts:144-149 | the listed user is the followed user, with the `following` flag passed through |
| UserQueries.FromFollower | graphql/queries/user.ts:167-172 | the listed user is the following user, with the `following` flag passed through |
| UserQueries.ToFollowNotification | graphql/queries/user.ts:226-232 | the notification keeps its `_id` and `createdAt`; its user and `following` flag become the followable user |
| UserQueries.ToUserDetails | graphql/queries/user.ts:181-193 | `latestFollower` is `latestMutualFollower`, `followedCount` is `mutualFollowersCount`, and the user, flag and counts pass through |
| UserQueries.UserDetailsRemapIsBijective | graphql/queries/user.ts:181-193 | the remap and its inverse undo each other, so no field is lost or invented |
| UserQueries.SuggestedUsersPage | graphql/queries/user.ts:117-127 | total is the full list length; the window law holds; each entry has `following == false` and carries its record's user, latestFollower and followedCount unchanged |
| UserQueries.FollowingPage | graphql/queries/user.ts:142-150 | total and the window law; each entry exposes `followedUser` with its `following` flag passed through |
| UserQueries.FollowersPage | graphql/queries/user.ts:165-173 | total and the window law; each entry exposes `followingUser` with its `following` flag passed through |
| UserQueries.FollowNotificationsPage | graphql/queries/user.ts:225-235 | total and the window law; each entry keeps its notification's `_id`, `createdAt`, user and flag, in input order |
| UserQueries.PagesFollowThePageLaw | graphql/queries/user.ts:118-125 | every resolver's page is the shared page law applied to the remapped list, whether the resolver remaps before slicing (lines 118-125, 226-233) or after (lines 144, 167) |
| UserQueries.NotificationPagesConcatenate | graphql/queries/user.ts:226-233 | two consecutive notification pages over the same list are the page spanning both |
| UserQueries.GenerateKey | loaders/followersForUserLoader.ts:10 | the cache key is `loggedInUserId`, then '-', then `userId` |
| UserQueries.GeneratedKeysCanCollide | loaders/followersForUserLoader.ts:10 | two different (viewer, user) pairs can share a cache key when an id contains '-' |
| UserQueries.Loader.constructor | loaders/followersForUserLoader.ts:12-27 | a new loader caches nothing |
| UserQueries.Loader.Clear | graphql/queries/user.ts:114 | `clear(key)` removes exactly that key from the cache |
| UserQueries.Loader.Load | graphql/queries/user.ts:116 | `load(key)` answers the cached list if there is one and leaves the cache alone; otherwise it answers and caches the fetched list |
| UserQueries.Served | graphql/queries/user.ts:113-116 | a first page, or a key not cached, is served the fetched list; a later page with the key cached is served the cached list |
| UserQueries.FirstPageIsFresh | graphql/queries/user.ts:113-116 | a first page is always built from the current list, never a cached one |
| UserQueries.ClearOnFirstPageThenLoad | graphql/queries/user.ts:113-116 | the cache entry is dropped before loading exactly when offset is 0; the list served is the fetched one then, and otherwise the cached one if present |
| UserQueries.GetSuggestedUsers | graphql/queries/user.ts:112-128 | the page of the list the cache policy serves, and the new cache |
| UserQueries.GetFollowingForUser | graphql/queries/user.ts:137-151 | the same, keyed by `GenerateKey(loggedInUserId, userId)` |
| UserQueries.GetFollowersForUser | graphql/queries/user.ts:160-174 | the same; the clear and the load use one key although they list the key's fields in different orders |
| UserQueries.GetFollowNotificationsForUser | graphql/queries/user.ts:220-236 | the same, keyed by the viewer's id |
| UserRepository.ClassifySignUpError | server/repositories/userRepository.ts:33-42 | duplicate key 11000 gives the `username` "Username must be unique" error; a ValidationError gives getValidationError; anything else, including any other MongoError code, gives "Could not sign up. Please try again later"; the validation code occurs exactly in the first two cases |
| UserRepository.OtherMongoErrorsAreServerErrors | server/repositories/userRepository.ts:34-41 | a MongoError with a code other than 11000 is reported exactly as an unexpected failure is |
| UserRepository.FindByUsername | server/repositories/userRepository.ts:52 | the index of the first user with that username, and none exactly when no user has it |
| UserRepository.SignUp | server/repositories/userRepository.ts:22-43 | stores `hash(password)`, never the plain password; a taken username fails as a duplicate key; every failure goes through the classification and leaves the users unchanged; usernames stay unique |
| UserRepository.Login | server/repositories/userRepository.ts:50-72 | an unknown username gives a `username` error and a wrong password a `password` error, both with the store unchanged; otherwise the user's refresh token is persisted, while the access token is set only on the returned record; a failed save gives "Could not login" |
| MessageModel.PreValidate | server/models/Message.ts:24-29 | the hook passes exactly when one of `message` and `photoURL` is present (truthy) |
| MessageModel.RequiredErrors | server/models/Message.ts:10-19 | `fromUserId` and `toUserId` are each reported as required exactly when absent, and nothing else is reported: one entry per missing id, each with its path's required message |
| MessageModel.Validate | server/models/Message.ts:9-29 | a document validates exactly when both user ids are present and exactly one content field is; the hook's rejection, with its content-rule message, comes first; otherwise the required errors are reported |
| MessageModel.BothContentsRejected | server/models/Message.ts:25-26 | a message with both a text and a photo is rejected by the hook |
| MessageModel.EmptyTextIsAbsent | server/models/Message.ts:25-26 | an empty text with no photo counts as neither present and is rejected |
| MessagesRepository.BuildDocumentAsWritten | server/repositories/messagesRepository.ts:18 | `new Message(createInput)` keeps the text but neither user id, because `from` and `to` are not schema paths |
| MessagesRepository.AsWrittenNeverValidates | server/repositories/messagesRepository.ts:18-19 | no input yields a document that validates; with a text, both required ids are reported missing |
| MessagesRepository.BuildDocument | server/repositories/messagesRepository.ts:18 | `from` and `to` are stored as `fromUserId` and `toUserId`, together with the text |
| MessagesRepository.BuildDocumentValidates | server/models/Message.ts:9-29 | the intended document validates exactly when sender, recipient and text are all non-empty |
| MessagesRepository.RecipientNotFound | server/repositories/messagesRepository.ts:16 | a "Validation error" with code MONGODB_VALIDATION_FAILED on `to` whose one message is "User with id <to> does not exist" |
| MessagesRepository.Create | server/repositories/messagesRepository.ts:13-27 | an unknown recipient gives a `to` error, and the sender is never checked; a ValidationError is reported, while the hook's plain Error and other failures are rethrown; on success exactly one Message is appended and returned |
| Token.AccessClaims | server/utils/token/index.ts:6-11 | the payload `{id, access: true}` with a 15-minute (900 s) expiry |
| Token.RefreshClaims | server/utils/token/index.ts:13-18 | the payload `{id, refresh: true}` with a 7-day (604800 s) expiry |
| Token.GenerateAccessToken | server/utils/token/index.ts:6-11 | the token is the signature of `{id: userId, access: true}` with a 900-second expiry, and of nothing else |
| Token.GenerateRefreshToken | server/utils/token/index.ts:13-18 | the token is the signature of `{id: userId, refresh: true}` with a 604800-second expiry |
| Token.SkipWhiteSpace | server/utils/token/index.ts:51 | the first position from which no more leading whitespace is skipped: everything before it is whitespace and the character there is not |
| Token.BackOverWhiteSpace | server/utils/token/index.ts:51 | the end of the text once its trailing whitespace is dropped: everything after it is whitespace and the character before it is not |
| Token.Trim | server/utils/token/index.ts:51 | the result is a contiguous part of the input, everything removed is whitespace, and the result neither starts nor ends with whitespace |
| Token.TrimKeepsTrimmed | server/utils/token/index.ts:51 | trimming a string that is already trimmed changes nothing |
| Token.DropFirst | server/utils/token/index.ts:51 | `slice(7)` drops the first 7 characters, or everything when the string is shorter |
| Token.ExtractToken | server/utils/token/index.ts:51 | a header of at most 7 characters gives ""; otherwise the token is the part of the header between the whitespace that follows the 7th character and the trailing whitespace, which is all that is dropped; it is non-empty whenever a non-whitespace character follows the 7th, and it neither starts nor ends with whitespace |
| Token.GetUserIdFromAuthHeader | server/utils/token/index.ts:48-60 | answers an id exactly when the header is present, starts with "Bearer", and the trimmed rest verifies to a payload with a non-empty id and `access`; the answer is that id; every other case, a failed verification included, gives null |
| Token.ExtractAfterScheme | server/utils/token/index.ts:50-51 | "Bearer", one separator and a trimmed token yields exactly that token |
| Token.AcceptedHeader | server/utils/token/index.ts:50-56 | a header whose token verifies to an access payload with an id yields that id |
| Token.AccessTokenIdentifiesUser | server/utils/token/index.ts:6-11 | a bearer header carrying a freshly signed access token yields the user's id, given that verification inverts signing |
| Token.RefreshTokenIsNoAccessToken | server/utils/token/index.ts:13-18 | a bearer header carrying a refresh token yields null |
| Token.SerializeRefreshToken | server/utils/token/index.ts:35-42 | the cookie is `refreshToken`, always httpOnly, secure and path "/"; maxAge is 0 exactly when `immediate`, and otherwise the refresh token's 604800-second lifetime |

## Left out

- The suggestion, feed and notification queries behind the loaders (`getSuggestedUsers`, `getFollowingForUser`, `getFollowersForUser`, `getFollowNotificationsForUser` and `getUserDetails` in the user repository) are not part of this model. The resolvers receive their results as the `fetched` parameter or as a `UserDetailsRecord`.
- `getUsersBySearchQuery`, `getSearchedUsers` and `getSearchedUsersForUser` only delegate to repository functions that are not part of this model.
- `createPost` uploads files to storage; file, image and storage I/O is not modelled.
- The DataLoader's batching and Promise handling are not modelled. `Loader` keeps only the cache semantics of `clear` and `load`.
- Transport, subscriptions and the server and WebSocket setup are not modelled.
- bcrypt, `jwt.sign`/`jwt.verify` and `cookie.serialize` are parameters or the `SetCookie` record; their internals are not modelled.
- `deserializeRefreshToken` is only a call to `cookie.parse`, so it is not modelled.
- `verifyToken` wraps `jwt.verify` in a Promise. It is modelled as `verify` returning `None` on failure.
- A malformed id makes `findById` throw a CastError. The model treats every string as a well-formed id that either matches a record or does not.
- Failures of the reads themselves are not modelled: `findById`, `findOne`, `find`, `bcrypt.compare` and the aggregation. Only the save and the hash can fail, through `saveFault` or `saveFails`.
- Two concurrent likes by one user can both pass the duplicate check, because no unique index exists. The model runs calls one at a time.
- PostsRepository.SortByCreatedAt: the store does not specify the order among comments with equal `createdAt`. The model's sort is stable, so ties keep the collection's order. The function's own contract promises only ascending order and a permutation, but every page built from `SortedRows` inherits that one tie order.
- PostsRepository.CommentPagesConcatenate: the pipeline sorts on `createdAt` alone before `$skip`, and MongoDB does not promise the same order of tied documents from one query to the next. Two consecutive requests can therefore repeat or skip a comment whose `createdAt` equals another's. The lemma holds for the model's one fixed order, not for the store.
- Negative offsets and limits, and JavaScript's negative-index `slice`, are not modelled; offsets and limits are `nat`. `$limit` requires a positive limit.
- The object spread `{ ...suggestedUser }` and `{ ...userDetails }` also carries the extra fields into the user object. The GraphQL `User` type does not expose them, so the model passes only the user.
- `signUp` returns the saved document, whose access token is null. The model returns the record with both tokens `None`.
- Login: a failed `findOne` or `bcrypt.compare` also becomes "Could not login"; only a failed save is modelled.
- Timestamps are integers, and `updatedAt` is not modelled.
- The `_id`s the store assigns are the parameter `newId`. Signing up and commenting require it to be non-empty, but not fresh: the model does not state or prove that `_id`s are unique within a collection.

## Findings

| source | as written | input that shows it | evidently intended | confidence | as-written member | corrected member |
|---|---|---|---|---|---|---|
| server/repositories/messagesRepository.ts:18 | `new Message(createInput)` passes `{from, to, message}` to a schema whose required paths are `fromUserId` and `toUserId`; strict mode drops `from` and `to` | `{from: "u1", to: "u2", message: "hi"}` with user u2 stored: validation reports both `fromUserId` and `toUserId` as required, so no message can ever be saved | store `from` as `fromUserId` and `to` as `toUserId` | not executed | MessagesRepository.AsWrittenNeverValidates | MessagesRepository.Create |
| server/repositories/postsRepository.ts:210 | `total: aggregateData[0].metadata[0].count`, while `$count` emits no document for an empty input | a post with no comments: `metadata` is `[]`, so reading `.count` throws a TypeError instead of returning an empty page | total 0 and an empty page | not executed | PostsRepository.GetCommentsForPostAsWritten | PostsRepository.GetCommentsForPost |

/**
 * graphql/queries/user.ts: the paginated user resolvers and the field remap
 * of getUserDetails.
 *
 * Each paginated resolver loads the viewer's whole list through a DataLoader
 * (after clearing the viewer's cache entry when `offset` is 0), turns its
 * records into the GraphQL shape and answers `{ total: list.length, data }`
 * with `data` the window `slice(offset, offset + limit)`. The suggested-users
 * and follow-notification resolvers remap before slicing; the following and
 * follower resolvers slice before remapping.
 */
module UserQueries {
  import opened Wrappers
  import opened Store
  import opened Pagination

  datatype FollowableUser = FollowableUser(user: User, following: bool)

  /** A user the repository suggests: the user itself plus the follower data shown with it. */
  datatype SuggestedUserRecord = SuggestedUserRecord(user: User, latestFollower: Option<User>, followedCount: int)

  datatype SuggestedUser = SuggestedUser(followableUser: FollowableUser, latestFollower: Option<User>, followedCount: int)

  /** One entry of getFollowingForUser's list: a user the profile owner follows. */
  datatype FollowingRecord = FollowingRecord(followedUser: User, following: bool)

  /** One entry of getFollowersForUser's list: a user who follows the profile owner. */
  datatype FollowerRecord = FollowerRecord(followingUser: User, following: bool)

  /** The GraphQL FollowingUser and FollowerUser, which have the same single field. */
  datatype ListedUser = ListedUser(followableUser: FollowableUser)

  datatype FollowNotificationRecord = FollowNotificationRecord(id: string, user: User, following: bool, createdAt: int)

  datatype FollowNotification = FollowNotification(id: string, followableUser: FollowableUser, createdAt: int)

  /** What userRepository.getUserDetails answers. */
  datatype UserDetailsRecord = UserDetailsRecord(
    user: User, following: bool, postsCount: int, followingCount: int, followersCount: int,
    latestMutualFollower: Option<User>, mutualFollowersCount: int)

  datatype UserDetails = UserDetails(
    followableUser: FollowableUser, postsCount: int, followingCount: int, followersCount: int,
    latestFollower: Option<User>, followedCount: int)

  // ---------------------------------------------------------------------------
  // Remaps, one per resolver

  /** A suggested user is, by construction, one the logged-in user does not follow. */
  function ToSuggestedUser(s: SuggestedUserRecord): (u: SuggestedUser)
    ensures u.followableUser.user == s.user && !u.followableUser.following
    ensures u.latestFollower == s.latestFollower && u.followedCount == s.followedCount
  {
    SuggestedUser(FollowableUser(s.user, false), s.latestFollower, s.followedCount)
  }

  /** The followed user becomes the listed user, with the logged-in user's follow flag. */
  function FromFollowing(f: FollowingRecord): (u: ListedUser)
    ensures u.followableUser.user == f.followedUser && u.followableUser.following == f.following
  {
    ListedUser(FollowableUser(f.followedUser, f.following))
  }

  /** The following user becomes the listed user, with the logged-in user's follow flag. */
  function FromFollower(f: FollowerRecord): (u: ListedUser)
    ensures u.followableUser.user == f.followingUser && u.followableUser.following == f.following
  {
    ListedUser(FollowableUser(f.followingUser, f.following))
  }

  /** The notification keeps its id and time; the follower and the follow flag become a followable user. */
  function ToFollowNotification(n: FollowNotificationRecord): (f: FollowNotification)
    ensures f.id == n.id && f.createdAt == n.createdAt
    ensures f.followableUser.user == n.user && f.followableUser.following == n.following
  {
    FollowNotification(n.id, FollowableUser(n.user, n.following), n.createdAt)
  }

  /** getUserDetails: the mutual-follower fields are exposed as `latestFollower` and `followedCount`. */
  function ToUserDetails(r: UserDetailsRecord): (d: UserDetails)
    ensures d.latestFollower == r.latestMutualFollower && d.followedCount == r.mutualFollowersCount
    ensures d.followableUser == FollowableUser(r.user, r.following)
    ensures d.postsCount == r.postsCount && d.followingCount == r.followingCount && d.followersCount == r.followersCount
  {
    UserDetails(FollowableUser(r.user, r.following), r.postsCount, r.followingCount, r.followersCount,
                r.latestMutualFollower, r.mutualFollowersCount)
  }

  /** The repository record a UserDetails answer was built from. */
  function FromUserDetails(d: UserDetails): UserDetailsRecord
  {
    UserDetailsRecord(d.followableUser.user, d.followableUser.following, d.postsCount, d.followingCount,
                      d.followersCount, d.latestFollower, d.followedCount)
  }

  /** The remap loses nothing: it is a bijection between records and answers. */
  lemma UserDetailsRemapIsBijective(r: UserDetailsRecord, d: UserDetails)
    ensures FromUserDetails(ToUserDetails(r)) == r
    ensures ToUserDetails(FromUserDetails(d)) == d
  {
  }

  // ---------------------------------------------------------------------------
  // Pages

  /** getSuggestedUsers' answer for a loaded list: remap, then slice. */
  function SuggestedUsersPage(list: seq<SuggestedUserRecord>, offset: nat, limit: nat): (p: Page<SuggestedUser>)
    ensures p.total == |list|
    ensures |p.data| == Min(limit, Max(0, |list| - offset))
    ensures forall i :: 0 <= i < |p.data| ==>
              && p.data[i].followableUser == FollowableUser(list[offset + i].user, false)
              && p.data[i].latestFollower == list[offset + i].latestFollower
              && p.data[i].followedCount == list[offset + i].followedCount
  {
    Page(|list|, Slice(Map(ToSuggestedUser, list), offset, offset + limit))
  }

  /** getFollowingForUser's answer for a loaded list: slice, then remap. */
  function FollowingPage(list: seq<FollowingRecord>, offset: nat, limit: nat): (p: Page<ListedUser>)
    ensures p.total == |list|
    ensures |p.data| == Min(limit, Max(0, |list| - offset))
    ensures forall i :: 0 <= i < |p.data| ==>
              p.data[i].followableUser == FollowableUser(list[offset + i].followedUser, list[offset + i].following)
  {
    Page(|list|, Map(FromFollowing, Slice(list, offset, offset + limit)))
  }

  /** getFollowersForUser's answer for a loaded list: slice, then remap. */
  function FollowersPage(list: seq<FollowerRecord>, offset: nat, limit: nat): (p: Page<ListedUser>)
    ensures p.total == |list|
    ensures |p.data| == Min(limit, Max(0, |list| - offset))
    ensures forall i :: 0 <= i < |p.data| ==>
              p.data[i].followableUser == FollowableUser(list[offset + i].followingUser, list[offset + i].following)
  {
    Page(|list|, Map(FromFollower, Slice(list, offset, offset + limit)))
  }

  /** getFollowNotificationsForUser's answer for a loaded list: remap, then slice. */
  function FollowNotificationsPage(list: seq<FollowNotificationRecord>, offset: nat, limit: nat): (p: Page<FollowNotification>)
    ensures p.total == |list|
    ensures |p.data| == Min(limit, Max(0, |list| - offset))
    ensures forall i :: 0 <= i < |p.data| ==>
              && p.data[i].id == list[offset + i].id
              && p.data[i].createdAt == list[offset + i].createdAt
              && p.data[i].followableUser == FollowableUser(list[offset + i].user, list[offset + i].following)
  {
    Page(|list|, Slice(Map(ToFollowNotification, list), offset, offset + limit))
  }

  /**
   * The two orders of remapping agree: every page is the shared page law
   * applied to the remapped list, or, equally, the remap of the shared page.
   */
  lemma {:induction false} PagesFollowThePageLaw(
    suggested: seq<SuggestedUserRecord>, following: seq<FollowingRecord>, followers: seq<FollowerRecord>,
    notifications: seq<FollowNotificationRecord>, offset: nat, limit: nat)
    ensures SuggestedUsersPage(suggested, offset, limit) == Paginate(Map(ToSuggestedUser, suggested), offset, limit)
    ensures SuggestedUsersPage(suggested, offset, limit).data == Map(ToSuggestedUser, Paginate(suggested, offset, limit).data)
    ensures FollowingPage(following, offset, limit) == Paginate(Map(FromFollowing, following), offset, limit)
    ensures FollowersPage(followers, offset, limit) == Paginate(Map(FromFollower, followers), offset, limit)
    ensures FollowNotificationsPage(notifications, offset, limit) == Paginate(Map(ToFollowNotification, notifications), offset, limit)
    ensures FollowNotificationsPage(notifications, offset, limit).data == Map(ToFollowNotification, Paginate(notifications, offset, limit).data)
  {
    MapCommutesWithPaginate(ToSuggestedUser, suggested, offset, limit);
    MapCommutesWithPaginate(FromFollowing, following, offset, limit);
    MapCommutesWithPaginate(FromFollower, followers, offset, limit);
    MapCommutesWithPaginate(ToFollowNotification, notifications, offset, limit);
  }

  /**
   * Scrolling: two consecutive requests over the same loaded list return the
   * entries of one request spanning both, in the list's order.
   */
  lemma {:induction false} NotificationPagesConcatenate(list: seq<FollowNotificationRecord>, offset: nat, first: nat, second: nat)
    ensures FollowNotificationsPage(list, offset, first).data + FollowNotificationsPage(list, offset + first, second).data
            == FollowNotificationsPage(list, offset, first + second).data
  {
    var remapped := Map(ToFollowNotification, list);
    ConsecutivePages(remapped, offset, first, second);
  }

  // ---------------------------------------------------------------------------
  // The loaders' caches

  /** The cacheKeyFn of the following and follower loaders: `${loggedInUserId}-${userId}`. */
  function GenerateKey(loggedInUserId: string, userId: string): (k: string)
    ensures |k| == |loggedInUserId| + 1 + |userId|
    ensures k[..|loggedInUserId|] == loggedInUserId && k[|loggedInUserId|] == '-' && k[|loggedInUserId| + 1..] == userId
  {
    loggedInUserId + "-" + userId
  }

  /** Ids that contain '-' can share a cache entry. */
  lemma GeneratedKeysCanCollide()
    ensures GenerateKey("a-b", "c") == GenerateKey("a", "b-c")
  {
  }

  /**
   * The cache a DataLoader keeps: `load(key)` answers the cached list when it
   * has one and otherwise fetches and caches it; `clear(key)` forgets the key.
   * The list a fetch would return now is passed to `Load` as `fetched`.
   */
  class Loader<V> {
    var cache: map<string, V>

    constructor ()
      ensures cache == map[]
    {
      cache := map[];
    }

    method Clear(key: string)
      modifies this
      ensures cache == old(cache) - {key}
    {
      cache := cache - {key};
    }

    method Load(key: string, fetched: V) returns (v: V)
      modifies this
      ensures key in old(cache) ==> v == old(cache)[key] && cache == old(cache)
      ensures key !in old(cache) ==> v == fetched && cache == old(cache)[key := fetched]
    {
      if key in cache {
        v := cache[key];
      } else {
        v := fetched;
        cache := cache[key := fetched];
      }
    }
  }

  /**
   * The list a paginated resolver pages over: the first page always reloads
   * it, a later page reuses the cached one when there is one.
   */
  function Served<V>(cache: map<string, V>, key: string, offset: nat, fetched: V): (v: V)
    ensures offset > 0 && key in cache ==> v == cache[key]
    ensures offset == 0 || key !in cache ==> v == fetched
  {
    if offset == 0 || key !in cache then fetched else cache[key]
  }

  /** A first page always shows the current list, whatever was cached before. */
  lemma FirstPageIsFresh<V>(cache: map<string, V>, key: string, fetched: V)
    ensures Served(cache, key, 0, fetched) == fetched
  {
  }

  method ClearOnFirstPageThenLoad<V>(loader: Loader<V>, key: string, offset: nat, fetched: V) returns (list: V)
    modifies loader
    ensures offset == 0 ==> loader.cache == old(loader.cache)[key := fetched]
    ensures offset != 0 ==> loader.cache == old(loader.cache)[key := Served(old(loader.cache), key, offset, fetched)]
    ensures list == Served(old(loader.cache), key, offset, fetched)
  {
    if offset == 0 {
      loader.Clear(key);
    }
    list := loader.Load(key, fetched);
  }

  method GetSuggestedUsers(loader: Loader<seq<SuggestedUserRecord>>, userId: string, offset: nat, limit: nat,
                           fetched: seq<SuggestedUserRecord>) returns (p: Page<SuggestedUser>)
    modifies loader
    ensures offset == 0 ==> loader.cache == old(loader.cache)[userId := fetched]
    ensures offset != 0 ==> loader.cache == old(loader.cache)[userId := Served(old(loader.cache), userId, offset, fetched)]
    ensures p == SuggestedUsersPage(Served(old(loader.cache), userId, offset, fetched), offset, limit)
  {
    var list := ClearOnFirstPageThenLoad(loader, userId, offset, fetched);
    p := SuggestedUsersPage(list, offset, limit);
  }

  method GetFollowingForUser(loader: Loader<seq<FollowingRecord>>, loggedInUserId: string, userId: string,
                             offset: nat, limit: nat, fetched: seq<FollowingRecord>) returns (p: Page<ListedUser>)
    modifies loader
    ensures var key := GenerateKey(loggedInUserId, userId);
            && (offset == 0 ==> loader.cache == old(loader.cache)[key := fetched])
            && (offset != 0 ==> loader.cache == old(loader.cache)[key := Served(old(loader.cache), key, offset, fetched)])
            && p == FollowingPage(Served(old(loader.cache), key, offset, fetched), offset, limit)
  {
    var list := ClearOnFirstPageThenLoad(loader, GenerateKey(loggedInUserId, userId), offset, fetched);
    p := FollowingPage(list, offset, limit);
  }

  /** The cache is cleared and loaded through the same key although the two calls list its fields in different orders. */
  method GetFollowersForUser(loader: Loader<seq<FollowerRecord>>, loggedInUserId: string, userId: string,
                             offset: nat, limit: nat, fetched: seq<FollowerRecord>) returns (p: Page<ListedUser>)
    modifies loader
    ensures var key := GenerateKey(loggedInUserId, userId);
            && (offset == 0 ==> loader.cache == old(loader.cache)[key := fetched])
            && (offset != 0 ==> loader.cache == old(loader.cache)[key := Served(old(loader.cache), key, offset, fetched)])
            && p == FollowersPage(Served(old(loader.cache), key, offset, fetched), offset, limit)
  {
    var list := ClearOnFirstPageThenLoad(loader, GenerateKey(loggedInUserId, userId), offset, fetched);
    p := FollowersPage(list, offset, limit);
  }

  method GetFollowNotificationsForUser(loader: Loader<seq<FollowNotificationRecord>>, userId: string,
                                       offset: nat, limit: nat, fetched: seq<FollowNotificationRecord>)
    returns (p: Page<FollowNotification>)
    modifies loader
    ensures offset == 0 ==> loader.cache == old(loader.cache)[userId := fetched]
    ensures offset != 0 ==> loader.cache == old(loader.cache)[userId := Served(old(loader.cache), userId, offset, fetched)]
    ensures p == FollowNotificationsPage(Served(old(loader.cache), userId, offset, fetched), offset, limit)
  {
    var list := ClearOnFirstPageThenLoad(loader, userId, offset, fetched);
    p := FollowNotificationsPage(list, offset, limit);
  }
}

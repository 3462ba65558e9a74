/** The post service (logic/post.go): creation, the detail read that joins a post with
    its author's name and its community, the three list reads (one lookup per post, three
    batched queries, and batched queries behind the cache), and the cached detail read
    with its stampede lock. The cache write-backs the source starts in goroutines are
    applied before the call returns. */
module PostLogic {
  import opened Wrappers
  import opened Models
  import opened MySqlStore
  import opened Batch
  import opened UserDao
  import opened CommunityDao
  import PostDao
  import Vote
  import opened RedisClient
  import opened Keys
  import opened Cache

  // ---------- creation ----------

  /** CreatePost: the post gets the fresh id, goes to MySQL, and only once that succeeded
      is it registered in the vote store. */
  method CreatePost(db: Database, c: Client, p: Post, newID: int, now: int) returns (created: Post, err: Option<Error>)
    requires db.Valid()
    modifies db, c
    ensures db.Valid()
    ensures created == p.(id := newID)
    ensures c.online == old(c.online) && db.online == old(db.online)
    ensures db.users == old(db.users) && db.usernames == old(db.usernames) && db.communities == old(db.communities)
    ensures !db.online || newID in old(db.posts) ==>
      err == (if db.online then Some(DuplicateKey) else Some(Backend)) && db.posts == old(db.posts) && c.state == old(c.state)
    ensures db.online && newID !in old(db.posts) ==>
      && db.posts == old(db.posts)[newID := PostDao.Inserted(created, db.statusDefault, now)]
      && err == (if c.online then None else Some(Backend))
      && c.state == (if c.online then ApplyAll(old(c.state), now, Vote.CreatePostCmds(newID, now)) else old(c.state))
  {
    created := p.(id := newID);
    err := PostDao.CreatePost(db, created, now);
    if err != None {
      return;
    }
    err := Vote.CreatePost(c, newID, created.communityId, now);
  }

  // ---------- one post ----------

  /** GetPostByID (and queryPostDetailFromDB, the same composition): the post, then its
      author, then its community; the first failure aborts. A missing community is no
      failure: the detail carries the zero-valued community. */
  function GetPostByID(db: Database, postID: int): (r: Result<PostDetail>)
    reads db
    ensures r.Ok? <==> db.online && postID in db.posts && db.posts[postID].authorId in db.users
    ensures !db.online ==> r == Err(Backend)
    ensures db.online && postID !in db.posts ==> r == Err(InvalidID)
    ensures db.online && postID in db.posts && db.posts[postID].authorId !in db.users ==> r == Err(NoRows)
    ensures r.Ok? ==> r.value.post == db.posts[postID] && r.value.authorName == db.users[r.value.post.authorId].username
    ensures r.Ok? ==>
      r.value.community == (if r.value.post.communityId in db.communities then db.communities[r.value.post.communityId] else ZeroCommunity)
  {
    match PostDao.GetPostByID(db, postID)
    case Err(e) => Err(e)
    case Ok(post) =>
      match GetUserByID(db, post.authorId)
      case Err(e) => Err(e)
      case Ok(user) => Ok(PostDetail(user.username, post, GetCommunityDetailByID(db, post.communityId).0))
  }

  // ---------- lists ----------

  /** The detail of a listed post whose author exists, as the per-post lookups build it. */
  function Compose(db: Database, post: Post): PostDetail
    requires post.authorId in db.users
    reads db
  {
    PostDetail(db.users[post.authorId].username, post, GetCommunityDetailByID(db, post.communityId).0)
  }

  /** GetPostList: the page, then one author and one community lookup per post; a post
      whose author is missing aborts the whole list. */
  method GetPostList(db: Database, page: int, size: int, ranked: seq<Post>) returns (r: Result<seq<PostDetail>>)
    requires PostDao.NewestFirst(db.posts, ranked)
    ensures PostDao.GetPostList(db, page, size, ranked).Err? ==> r == Err(PostDao.GetPostList(db, page, size, ranked).error)
    ensures PostDao.GetPostList(db, page, size, ranked).Ok? ==>
      var posts := PostDao.GetPostList(db, page, size, ranked).value;
      && (r.Ok? <==> forall i :: 0 <= i < |posts| ==> posts[i].authorId in db.users)
      && (r.Err? ==> r == Err(NoRows))
      && (r.Ok? ==> |r.value| == |posts| && forall i :: 0 <= i < |posts| ==> r.value[i] == Compose(db, posts[i]))
  {
    var listed := PostDao.GetPostList(db, page, size, ranked);
    if listed.Err? {
      return Err(listed.error);
    }
    var posts := listed.value;
    var data: seq<PostDetail> := [];
    for i := 0 to |posts|
      invariant |data| == i
      invariant forall k :: 0 <= k < i ==> posts[k].authorId in db.users && data[k] == Compose(db, posts[k])
    {
      var user := GetUserByID(db, posts[i].authorId);
      if user.Err? {
        return Err(user.error);
      }
      var community := GetCommunityDetailByID(db, posts[i].communityId).0;
      data := data + [PostDetail(user.value.username, posts[i], community)];
    }
    r := Ok(data);
  }

  function Authors(posts: seq<Post>): (ids: seq<int>)
    ensures |ids| == |posts| && forall i :: 0 <= i < |posts| ==> ids[i] == posts[i].authorId
  {
    seq(|posts|, i requires 0 <= i < |posts| => posts[i].authorId)
  }

  function CommunitiesOf(posts: seq<Post>): (ids: seq<int>)
    ensures |ids| == |posts| && forall i :: 0 <= i < |posts| ==> ids[i] == posts[i].communityId
  {
    seq(|posts|, i requires 0 <= i < |posts| => posts[i].communityId)
  }

  /** The list assembly: one detail per post, in post order, skipping any post whose
      author or community is not in the maps. */
  function Assemble(posts: seq<Post>, users: map<int, User>, communities: map<int, CommunityDetail>): seq<PostDetail>
    decreases |posts|
  {
    if posts == [] then []
    else
      var p := posts[|posts| - 1];
      Assemble(posts[..|posts| - 1], users, communities) +
        (if p.authorId in users && p.communityId in communities
         then [PostDetail(users[p.authorId].username, p, communities[p.communityId])] else [])
  }

  /** Assembly works post by post: the details of a list are those of its parts, in order. */
  lemma {:induction false} AssembleConcat(a: seq<Post>, b: seq<Post>, users: map<int, User>, communities: map<int, CommunityDetail>)
    ensures Assemble(a + b, users, communities) == Assemble(a, users, communities) + Assemble(b, users, communities)
    decreases |b|
  {
    if b == [] {
      assert a + b == a;
    } else {
      var b' := b[..|b| - 1];
      assert (a + b)[..|a + b| - 1] == a + b';
      AssembleConcat(a, b', users, communities);
    }
  }

  /** Assembly never adds a post: at most one detail per listed post. */
  lemma {:induction false} AssembleLength(posts: seq<Post>, users: map<int, User>, communities: map<int, CommunityDetail>)
    ensures |Assemble(posts, users, communities)| <= |posts|
    decreases |posts|
  {
    if posts != [] {
      AssembleLength(posts[..|posts| - 1], users, communities);
    }
  }

  /** Each assembled detail belongs to a post of the list whose author and community are
      both in the maps, and carries that author's name and that community. */
  lemma {:induction false} AssembleSound(posts: seq<Post>, users: map<int, User>, communities: map<int, CommunityDetail>)
    ensures forall d :: d in Assemble(posts, users, communities) ==>
      && d.post in posts && d.post.authorId in users && d.post.communityId in communities
      && d.authorName == users[d.post.authorId].username && d.community == communities[d.post.communityId]
    decreases |posts|
  {
    if posts != [] {
      var front := posts[..|posts| - 1];
      AssembleSound(front, users, communities);
      assert forall p :: p in front ==> p in posts;
    }
  }

  /** With every author and community present, no post is skipped. */
  lemma {:induction false} AssembleComplete(posts: seq<Post>, users: map<int, User>, communities: map<int, CommunityDetail>)
    requires forall i :: 0 <= i < |posts| ==> posts[i].authorId in users && posts[i].communityId in communities
    ensures |Assemble(posts, users, communities)| == |posts|
    ensures forall i :: 0 <= i < |posts| ==>
      Assemble(posts, users, communities)[i] == PostDetail(users[posts[i].authorId].username, posts[i], communities[posts[i].communityId])
    decreases |posts|
  {
    if posts != [] {
      AssembleComplete(posts[..|posts| - 1], users, communities);
    }
  }

  /** Assembly looks only at the authors and communities of the listed posts. */
  lemma {:induction false} AssembleLocal(posts: seq<Post>, u1: map<int, User>, u2: map<int, User>,
                                         c1: map<int, CommunityDetail>, c2: map<int, CommunityDetail>)
    requires forall i :: 0 <= i < |posts| ==> (posts[i].authorId in u1 <==> posts[i].authorId in u2)
    requires forall i :: 0 <= i < |posts| && posts[i].authorId in u1 ==>
      u1[posts[i].authorId].username == u2[posts[i].authorId].username
    requires forall i :: 0 <= i < |posts| ==> (posts[i].communityId in c1 <==> posts[i].communityId in c2)
    requires forall i :: 0 <= i < |posts| && posts[i].communityId in c1 ==>
      c1[posts[i].communityId] == c2[posts[i].communityId]
    ensures Assemble(posts, u1, c1) == Assemble(posts, u2, c2)
    decreases |posts|
  {
    if posts != [] {
      AssembleLocal(posts[..|posts| - 1], u1, u2, c1, c2);
    }
  }

  /** The assembly loop of both batched list reads. */
  method AssembleDetails(posts: seq<Post>, users: map<int, User>, communities: map<int, CommunityDetail>)
    returns (data: seq<PostDetail>)
    ensures data == Assemble(posts, users, communities)
  {
    data := [];
    for i := 0 to |posts|
      invariant data == Assemble(posts[..i], users, communities)
    {
      assert posts[..i + 1][..i] == posts[..i];
      var post := posts[i];
      if post.authorId !in users {
        continue;
      }
      if post.communityId !in communities {
        continue;
      }
      data := data + [PostDetail(users[post.authorId].username, post, communities[post.communityId])];
    }
    assert posts[..|posts|] == posts;
  }

  /** The id extraction loop of GetPostListOptimized: one author id and one community id
      per post, duplicates kept. */
  method ListedIDs(posts: seq<Post>) returns (userIDs: seq<int>, communityIDs: seq<int>)
    ensures userIDs == Authors(posts) && communityIDs == CommunitiesOf(posts)
  {
    userIDs, communityIDs := [], [];
    for i := 0 to |posts|
      invariant userIDs == Authors(posts[..i]) && communityIDs == CommunitiesOf(posts[..i])
    {
      userIDs := userIDs + [posts[i].authorId];
      communityIDs := communityIDs + [posts[i].communityId];
    }
    assert posts[..|posts|] == posts;
  }

  /** GetPostListOptimized: the page, one batch of authors and one of communities (each
      limited to 1000 ids counted with their duplicates), then the assembly, which skips
      posts whose author or community is missing. */
  method GetPostListOptimized(db: Database, page: int, size: int, ranked: seq<Post>) returns (r: Result<seq<PostDetail>>)
    requires db.Valid() && PostDao.NewestFirst(db.posts, ranked)
    ensures PostDao.GetPostList(db, page, size, ranked).Err? ==> r == Err(PostDao.GetPostList(db, page, size, ranked).error)
    ensures PostDao.GetPostList(db, page, size, ranked).Ok? ==>
      var posts := PostDao.GetPostList(db, page, size, ranked).value;
      && (posts == [] ==> r == Ok([]))
      && (|posts| > MaxBatchSize ==> r == Err(TooManyIDs(|posts|, MaxBatchSize)))
      && (0 < |posts| <= MaxBatchSize ==>
            r == Ok(Assemble(posts, Found(db.users, Authors(posts), NoPassword), Found(db.communities, CommunitiesOf(posts), Same))))
  {
    var listed := PostDao.GetPostList(db, page, size, ranked);
    if listed.Err? {
      return Err(listed.error);
    }
    var posts := listed.value;
    if |posts| == 0 {
      return Ok([]);
    }
    var userIDs, communityIDs := ListedIDs(posts);
    var users := BatchGetUsersByIDs(db, userIDs);
    if users.Err? {
      return Err(users.error);
    }
    var communities := BatchGetCommunitiesByIDs(db, communityIDs);
    if communities.Err? {
      // one Database answers both batches, and this one has as many ids as the author batch that just succeeded
      assert false;
    }
    var data := AssembleDetails(posts, users.value, communities.value);
    r := Ok(data);
  }

  /** When every listed post has its author and its community, the batched read returns
      exactly what the per-post read returns. */
  lemma OptimizedAgreesWithPlain(db: Database, posts: seq<Post>)
    requires db.online
    requires forall i :: 0 <= i < |posts| ==> posts[i].authorId in db.users && posts[i].communityId in db.communities
    ensures var data := Assemble(posts, Found(db.users, Authors(posts), NoPassword), Found(db.communities, CommunitiesOf(posts), Same));
      |data| == |posts| && forall i :: 0 <= i < |posts| ==> data[i] == Compose(db, posts[i])
  {
    var users := Found(db.users, Authors(posts), NoPassword);
    var communities := Found(db.communities, CommunitiesOf(posts), Same);
    forall i | 0 <= i < |posts|
      ensures posts[i].authorId in users && posts[i].communityId in communities
    {
      assert Authors(posts)[i] == posts[i].authorId;
      assert CommunitiesOf(posts)[i] == posts[i].communityId;
    }
    AssembleComplete(posts, users, communities);
  }

  /** Where the two reads differ: a post whose community is missing is kept by the
      per-post read (with the zero-valued community) but skipped by the batched read. */
  lemma MissingCommunitySkipped(db: Database, posts: seq<Post>, i: int)
    requires db.online && 0 <= i < |posts|
    requires posts[i].authorId in db.users && posts[i].communityId !in db.communities
    ensures Compose(db, posts[i]).community == ZeroCommunity
    ensures forall d :: d in Assemble(posts, Found(db.users, Authors(posts), NoPassword), Found(db.communities, CommunitiesOf(posts), Same)) ==>
      d.post.communityId != posts[i].communityId
  {
    AssembleSound(posts, Found(db.users, Authors(posts), NoPassword), Found(db.communities, CommunitiesOf(posts), Same));
  }

  // ---------- one post, behind the cache ----------

  /** The resource the stampede lock of a post detail guards: "post:" + the decimal id. */
  function PostLockID(postID: int): string {
    "post:" + Decimal(postID)
  }

  /** The command that takes a post's stampede lock: the plain SET the source sends,
      or the SET NX its comment describes. */
  function TakeLock(postID: int, nx: bool): Cmd {
    if nx then SetNXCmd(LockKey(PostLockID(postID)), LockValue, CacheLockExpire)
    else SetCmd(LockKey(PostLockID(postID)), LockValue, CacheLockExpire)
  }

  /** GetPostByIDWithCache: a cache hit is returned as is; on a miss the caller tries the
      lock. The holder reads the cache again, then the database, writes a found detail
      back and frees the lock; a caller without the lock reads the cache again and then
      the database, writing nothing. A failed cache read counts as a miss. The lock is
      taken with the plain SET of Cache.TryLockAsWritten, so with Redis up every caller
      holds it. No other client writes between the two cache reads of one call here, so
      the second read finds what the first found. */
  method GetPostByIDWithCache(db: Database, c: Client, stats: CacheStats, postID: int, now: int) returns (r: Result<PostDetail>)
    modifies c, stats
    ensures c.online == old(c.online)
    ensures var first := Lookup(old(c.state), c.online, PostKey(postID), now, DecodePost);
      r == if first.Hit? then Ok(first.value) else GetPostByID(db, postID)
    ensures var first := Lookup(old(c.state), c.online, PostKey(postID), now, DecodePost);
      && stats.hitCount == old(stats.hitCount) + (if first.Hit? then 1 else 0)
      && stats.missCount == old(stats.missCount) + (if first.Miss? then 2 else 0)
      && stats.errorCount == old(stats.errorCount) + (if first.Failed? then 2 else 0)
    ensures var first := Lookup(old(c.state), c.online, PostKey(postID), now, DecodePost);
      c.state == if first.Hit? || !c.online then old(c.state) else AfterHolder(old(c.state), db, postID, now, false)
  {
    var first := GetPostDetailFromCache(c, stats, postID, now);
    if first.Hit? {
      return Ok(first.value);
    }
    ghost var before := c.state;
    var locked, lockErr := TryLockAsWritten(c, PostLockID(postID), now);
    LockLeavesDetail(before, postID, now, false);
    if locked {
      r := ReadAsHolder(db, c, stats, postID, now);
    } else {
      var again := GetPostDetailFromCache(c, stats, postID, now);
      r := GetPostByID(db, postID);
    }
  }

  /** The same read over the corrected lock (Cache.TryLock, SET NX): a caller that finds
      the lock live writes nothing and reads the database directly. */
  method GetPostByIDWithCacheFixed(db: Database, c: Client, stats: CacheStats, postID: int, now: int) returns (r: Result<PostDetail>)
    modifies c, stats
    ensures c.online == old(c.online)
    ensures var first := Lookup(old(c.state), c.online, PostKey(postID), now, DecodePost);
      r == if first.Hit? then Ok(first.value) else GetPostByID(db, postID)
    ensures var first := Lookup(old(c.state), c.online, PostKey(postID), now, DecodePost);
      && stats.hitCount == old(stats.hitCount) + (if first.Hit? then 1 else 0)
      && stats.missCount == old(stats.missCount) + (if first.Miss? then 2 else 0)
      && stats.errorCount == old(stats.errorCount) + (if first.Failed? then 2 else 0)
    ensures var first := Lookup(old(c.state), c.online, PostKey(postID), now, DecodePost);
      c.state == if first.Hit? || !c.online || Live(old(c.state), LockKey(PostLockID(postID)), now).Some?
                 then old(c.state) else AfterHolder(old(c.state), db, postID, now, true)
  {
    var first := GetPostDetailFromCache(c, stats, postID, now);
    if first.Hit? {
      return Ok(first.value);
    }
    ghost var before := c.state;
    var locked, lockErr := TryLock(c, PostLockID(postID), now);
    LockLeavesDetail(before, postID, now, true);
    if locked {
      r := ReadAsHolder(db, c, stats, postID, now);
    } else {
      var again := GetPostDetailFromCache(c, stats, postID, now);
      if again.Hit? {
        assert false;
      }
      r := GetPostByID(db, postID);
    }
  }

  /** Taking the lock, with either command, does not change what the detail's cache read finds. */
  lemma LockLeavesDetail(s: State, postID: int, now: int, nx: bool)
    ensures Lookup(Apply(s, now, TakeLock(postID, nx)), true, PostKey(postID), now, DecodePost)
         == Lookup(s, true, PostKey(postID), now, DecodePost)
  {
    PostKeyIsNoLockKey(postID);
    assert Live(Apply(s, now, TakeLock(postID, nx)), PostKey(postID), now) == Live(s, PostKey(postID), now);
  }

  /** A post's detail key is not its lock key. */
  lemma PostKeyIsNoLockKey(postID: int)
    ensures PostKey(postID) != LockKey(PostLockID(postID))
  {
    CacheKindsNeverCollide(0, 3, Decimal(postID), PostLockID(postID));
  }

  /** The lock holder's part: the double-checked cache read, the database read, the
      write-back of a found detail and the release of the lock. */
  method ReadAsHolder(db: Database, c: Client, stats: CacheStats, postID: int, now: int) returns (r: Result<PostDetail>)
    requires c.online && !Lookup(c.state, true, PostKey(postID), now, DecodePost).Hit?
    modifies c, stats
    ensures c.online
    ensures r == GetPostByID(db, postID)
    ensures var again := Lookup(old(c.state), true, PostKey(postID), now, DecodePost);
      && stats.hitCount == old(stats.hitCount)
      && stats.missCount == old(stats.missCount) + (if again.Miss? then 1 else 0)
      && stats.errorCount == old(stats.errorCount) + (if again.Failed? then 1 else 0)
    ensures c.state == Apply(Filled(old(c.state), postID, r, now), now, DelCmd(LockKey(PostLockID(postID))))
  {
    var again := GetPostDetailFromCache(c, stats, postID, now);
    if again.Hit? {
      assert false;
    }
    r := GetPostByID(db, postID);
    if r.Ok? {
      var cacheErr := SetPostDetailToCache(c, postID, r.value, now);
    }
    var unlockErr := ReleaseLock(c, PostLockID(postID), now);
  }

  /** The cache after a lock holder's call: the lock taken, the detail written back, the lock freed. */
  function AfterHolder(s: State, db: Database, postID: int, now: int, nx: bool): State
    reads db
  {
    Apply(Filled(Apply(s, now, TakeLock(postID, nx)), postID, GetPostByID(db, postID), now), now, DelCmd(LockKey(PostLockID(postID))))
  }

  /** The write-back of the lock holder: a found detail that marshals is stored for 30 minutes. */
  function Filled(s: State, postID: int, read: Result<PostDetail>, now: int): State {
    if read.Ok? && EncodePost(read.value).Ok?
    then Apply(s, now, SetCmd(PostKey(postID), PostJson(read.value), PostDetailCacheExpire))
    else s
  }

  /** After the lock holder's read, with either lock command and whatever lock was live
      before, the lock is free again and, for the next 30 minutes, the detail it found
      (when it marshals) is served from the cache. */
  lemma {:induction false} LockHolderFillsCache(s: State, db: Database, postID: int, now: int, t: int, nx: bool)
    requires now <= t
    ensures var after := AfterHolder(s, db, postID, now, nx);
      && Live(after, LockKey(PostLockID(postID)), t).None?
      && (GetPostByID(db, postID).Ok? && EncodePost(GetPostByID(db, postID).value).Ok? && t < now + PostDetailCacheExpire ==>
            Lookup(after, true, PostKey(postID), t, DecodePost) == Hit(GetPostByID(db, postID).value))
  {
    var lock := LockKey(PostLockID(postID));
    var s1 := Apply(s, now, TakeLock(postID, nx));
    var s2 := Filled(s1, postID, GetPostByID(db, postID), now);
    PostKeyIsNoLockKey(postID);
    DeleteThenGet(s2, lock, now, t, DecodePost);
    var read := GetPostByID(db, postID);
    if read.Ok? && EncodePost(read.value).Ok? && t < now + PostDetailCacheExpire {
      CodecRoundTrip(read.value, User(0, "", ""), ZeroCommunity);
      SetThenGet(s1, PostKey(postID), read.value, PostJson(read.value), PostDetailCacheExpire, now, t, DecodePost);
      OtherKeysUnaffected(s2, lock, PostKey(postID), LockValue, 0, now, t, DecodePost);
    }
  }

  // ---------- lists, behind the cache ----------

  /** The id extraction loop of GetPostListOptimizedWithCache: the authors and the
      communities of the list, each id once, in order of first appearance. */
  method DistinctIDs(posts: seq<Post>) returns (userIDs: seq<int>, communityIDs: seq<int>)
    ensures userIDs == FirstSeen(Authors(posts)) && communityIDs == FirstSeen(CommunitiesOf(posts))
  {
    userIDs, communityIDs := [], [];
    var userSet: set<int>, communitySet: set<int> := {}, {};
    for i := 0 to |posts|
      invariant userIDs == FirstSeen(Authors(posts[..i])) && communityIDs == FirstSeen(CommunitiesOf(posts[..i]))
      invariant forall x :: x in userSet <==> x in userIDs
      invariant forall x :: x in communitySet <==> x in communityIDs
    {
      ListedStep(posts, i);
      FirstSeenAppend(Authors(posts[..i]), posts[i].authorId);
      FirstSeenAppend(CommunitiesOf(posts[..i]), posts[i].communityId);
      if posts[i].authorId !in userSet {
        userIDs := userIDs + [posts[i].authorId];
        userSet := userSet + {posts[i].authorId};
      }
      if posts[i].communityId !in communitySet {
        communityIDs := communityIDs + [posts[i].communityId];
        communitySet := communitySet + {posts[i].communityId};
      }
    }
    assert posts[..|posts|] == posts;
  }

  lemma ListedStep(posts: seq<Post>, i: int)
    requires 0 <= i < |posts|
    ensures Authors(posts[..i + 1]) == Authors(posts[..i]) + [posts[i].authorId]
    ensures CommunitiesOf(posts[..i + 1]) == CommunitiesOf(posts[..i]) + [posts[i].communityId]
  {
  }

  lemma FirstSeenAppend(ids: seq<int>, x: int)
    ensures FirstSeen(ids + [x]) == if x in FirstSeen(ids) then FirstSeen(ids) else FirstSeen(ids) + [x]
  {
    assert (ids + [x])[..|ids|] == ids;
  }

  /** What a batched cache read leaves the caller: the hits, and the ids to fetch from the
      database; a failed read (Redis down) hands back no hits and every id. */
  function CacheSplit<T>(s: State, online: bool, prefix: string, ids: seq<int>, now: int, decode: Payload -> Option<T>): (map<int, T>, seq<int>)
  {
    if !online then (map[], ids)
    else
      var outs := Outcomes(s, prefix, ids, now, decode);
      (HitsOf(ids, outs), MissedOf(ids, outs))
  }

  /** The database batch for the ids the cache missed: skipped when there are none. */
  function FetchMissed<T>(online: bool, table: map<int, T>, missed: seq<int>, project: T -> T, what: string): Result<map<int, T>> {
    if missed == [] then Ok(map[])
    else if |missed| > MaxBatchSize then Err(TooManyIDs(|missed|, MaxBatchSize))
    else if !online then Err(Wrapped(what, Backend))
    else Ok(Found(table, missed, project))
  }

  function UsersFetched(db: Database, s: State, online: bool, userIDs: seq<int>, now: int): Result<map<int, User>>
    reads db
  {
    FetchMissed(db.online, db.users, CacheSplit(s, online, KeyUserInfoPF, userIDs, now, DecodeUser).1, NoPassword, "batch get users failed")
  }

  function CommunitiesFetched(db: Database, s: State, online: bool, communityIDs: seq<int>, now: int): Result<map<int, CommunityDetail>>
    reads db
  {
    FetchMissed(db.online, db.communities, CacheSplit(s, online, KeyCommunityInfoPF, communityIDs, now, DecodeCommunity).1,
                Same, "batch get communities failed")
  }

  /** The answer of the cached list read for a non-empty page `posts`: authors and
      communities each from the cache where it hits and from the database otherwise (the
      database winning), then the assembly. */
  function CachedRead(db: Database, s: State, online: bool, posts: seq<Post>, now: int): Result<seq<PostDetail>>
    reads db
  {
    var userIDs, communityIDs := FirstSeen(Authors(posts)), FirstSeen(CommunitiesOf(posts));
    match UsersFetched(db, s, online, userIDs, now)
    case Err(e) => Err(e)
    case Ok(fromDB) =>
      match CommunitiesFetched(db, s, online, communityIDs, now)
      case Err(e) => Err(e)
      case Ok(communitiesFromDB) =>
        Ok(Assemble(posts,
                    CacheSplit(s, online, KeyUserInfoPF, userIDs, now, DecodeUser).0 + fromDB,
                    CacheSplit(s, online, KeyCommunityInfoPF, communityIDs, now, DecodeCommunity).0 + communitiesFromDB))
  }

  /** The cache after a read whose database batches found `users` and `communities`:
      those records written with their expiries, every other key as it was. */
  ghost predicate WrittenBack(before: map<string, Entry>, after: map<string, Entry>,
                              users: map<int, Payload>, communities: map<int, Payload>, now: int) {
    && (forall id :: id in users ==> UserKey(id) in after && after[UserKey(id)] == Entry(users[id], now + UserInfoCacheExpire))
    && (forall id :: id in communities ==>
          CommunityKey(id) in after && after[CommunityKey(id)] == Entry(communities[id], now + CommunityInfoCacheExpire))
    && (forall k :: (forall id :: id in users ==> UserKey(id) != k) && (forall id :: id in communities ==> CommunityKey(id) != k) ==>
          (k in after <==> k in before) && (k in before ==> after[k] == before[k]))
  }

  /** Steps three and four for the authors: the batched cache read (falling back to the
      database for every id when it fails), the database batch for the ids it missed, the
      write-back of what the database returned, and the merge. */
  method FetchUsers(db: Database, c: Client, stats: CacheStats, userIDs: seq<int>, now: int) returns (users: Result<map<int, User>>)
    requires db.Valid()
    modifies c, stats
    ensures c.online == old(c.online)
    ensures var fetched := UsersFetched(db, old(c.state), c.online, userIDs, now);
      users == if fetched.Err? then Err(fetched.error)
               else Ok(CacheSplit(old(c.state), c.online, KeyUserInfoPF, userIDs, now, DecodeUser).0 + fetched.value)
    ensures c.state.zsets == old(c.state).zsets && c.state.sets == old(c.state).sets
    ensures var fetched := UsersFetched(db, old(c.state), c.online, userIDs, now);
      fetched.Err? || !c.online ==> c.state == old(c.state)
    ensures var fetched := UsersFetched(db, old(c.state), c.online, userIDs, now);
      fetched.Ok? && c.online ==>
        BatchWritten(old(c.state).strings, c.state.strings, UserKey, Encodable(fetched.value, EncodeUser), now + UserInfoCacheExpire)
  {
    var cached, missed, err := BatchGetUsersFromCache(c, stats, userIDs, now);
    if err != None {
      missed := userIDs;
      cached := map[];
    }
    var fromDB: map<int, User> := map[];
    if |missed| > 0 {
      var fetched := BatchGetUsersByIDs(db, missed);
      if fetched.Err? {
        return Err(fetched.error);
      }
      fromDB := fetched.value;
      var cacheErr := BatchSetUsersToCache(c, fromDB, now);
    }
    users := Ok(cached + fromDB);
  }

  /** Steps five and six, the same for the communities. */
  method FetchCommunities(db: Database, c: Client, stats: CacheStats, communityIDs: seq<int>, now: int)
    returns (communities: Result<map<int, CommunityDetail>>)
    requires db.Valid()
    modifies c, stats
    ensures c.online == old(c.online)
    ensures var fetched := CommunitiesFetched(db, old(c.state), c.online, communityIDs, now);
      communities == if fetched.Err? then Err(fetched.error)
                     else Ok(CacheSplit(old(c.state), c.online, KeyCommunityInfoPF, communityIDs, now, DecodeCommunity).0 + fetched.value)
    ensures c.state.zsets == old(c.state).zsets && c.state.sets == old(c.state).sets
    ensures var fetched := CommunitiesFetched(db, old(c.state), c.online, communityIDs, now);
      fetched.Err? || !c.online ==> c.state == old(c.state)
    ensures var fetched := CommunitiesFetched(db, old(c.state), c.online, communityIDs, now);
      fetched.Ok? && c.online ==>
        BatchWritten(old(c.state).strings, c.state.strings, CommunityKey, Encodable(fetched.value, EncodeCommunity),
                     now + CommunityInfoCacheExpire)
  {
    var cached, missed, err := BatchGetCommunitiesFromCache(c, stats, communityIDs, now);
    if err != None {
      missed := communityIDs;
      cached := map[];
    }
    var fromDB: map<int, CommunityDetail> := map[];
    if |missed| > 0 {
      var fetched := BatchGetCommunitiesByIDs(db, missed);
      if fetched.Err? {
        return Err(fetched.error);
      }
      fromDB := fetched.value;
      var cacheErr := BatchSetCommunitiesToCache(c, fromDB, now);
    }
    communities := Ok(cached + fromDB);
  }

  lemma UserKeyIsNoCommunityKey(a: int, b: int)
    ensures UserKey(a) != CommunityKey(b)
  {
    CacheKindsNeverCollide(1, 2, Decimal(a), Decimal(b));
  }

  /** Writing authors back touches no community key. */
  lemma UserWritesKeepCommunityKey(s: State, s': State, users: map<int, User>, id: int, now: int)
    requires BatchWritten(s.strings, s'.strings, UserKey, Encodable(users, EncodeUser), now + UserInfoCacheExpire)
    ensures Lookup(s', true, CommunityKey(id), now, DecodeCommunity) == Lookup(s, true, CommunityKey(id), now, DecodeCommunity)
  {
    var k, written := CommunityKey(id), Encodable(users, EncodeUser);
    forall j | j in written
      ensures UserKey(j) != k
    {
      UserKeyIsNoCommunityKey(j, id);
    }
    assert Live(s', k, now) == Live(s, k, now);
  }

  /** So the community read that follows the author write-back finds what it would have
      found before it. */
  lemma UserWritesKeepCommunityReads(s: State, s': State, users: map<int, User>, online: bool, ids: seq<int>, now: int)
    requires BatchWritten(s.strings, s'.strings, UserKey, Encodable(users, EncodeUser), now + UserInfoCacheExpire)
    ensures CacheSplit(s', online, KeyCommunityInfoPF, ids, now, DecodeCommunity) == CacheSplit(s, online, KeyCommunityInfoPF, ids, now, DecodeCommunity)
  {
    forall i | 0 <= i < |ids|
      ensures Outcomes(s', KeyCommunityInfoPF, ids, now, DecodeCommunity)[i] == Outcomes(s, KeyCommunityInfoPF, ids, now, DecodeCommunity)[i]
    {
      UserWritesKeepCommunityKey(s, s', users, ids[i], now);
    }
    assert Outcomes(s', KeyCommunityInfoPF, ids, now, DecodeCommunity) == Outcomes(s, KeyCommunityInfoPF, ids, now, DecodeCommunity);
  }

  /** The author write-back followed by the community write-back is the combined write-back. */
  lemma WrittenBackComposes(s0: map<string, Entry>, s1: map<string, Entry>, s2: map<string, Entry>,
                            users: map<int, Payload>, communities: map<int, Payload>, now: int)
    requires BatchWritten(s0, s1, UserKey, users, now + UserInfoCacheExpire)
    requires BatchWritten(s1, s2, CommunityKey, communities, now + CommunityInfoCacheExpire)
    ensures WrittenBack(s0, s2, users, communities, now)
  {
    forall id | id in users
      ensures UserKey(id) in s2 && s2[UserKey(id)] == Entry(users[id], now + UserInfoCacheExpire)
    {
      forall j | j in communities
        ensures CommunityKey(j) != UserKey(id)
      {
        UserKeyIsNoCommunityKey(id, j);
      }
    }
  }

  /** GetPostListOptimizedWithCache: the page; the distinct authors and communities in
      order of first appearance; for each kind the cache first, the database for what it
      missed (all of it when Redis is down), the write-back of what the database returned,
      and the merge; then the assembly. A database batch is limited to 1000 ids counted
      after deduplication and after removing the cache hits. */
  method GetPostListOptimizedWithCache(db: Database, c: Client, stats: CacheStats, page: int, size: int, ranked: seq<Post>, now: int)
    returns (r: Result<seq<PostDetail>>)
    requires db.Valid() && PostDao.NewestFirst(db.posts, ranked)
    modifies c, stats
    ensures c.online == old(c.online)
    ensures c.state.zsets == old(c.state).zsets && c.state.sets == old(c.state).sets
    ensures var listed := PostDao.GetPostList(db, page, size, ranked);
      listed.Err? ==> r == Err(listed.error) && c.state == old(c.state)
    ensures var listed := PostDao.GetPostList(db, page, size, ranked);
      listed.Ok? && listed.value == [] ==> r == Ok([]) && c.state == old(c.state)
    ensures var listed := PostDao.GetPostList(db, page, size, ranked);
      listed.Ok? && listed.value != [] ==> r == CachedRead(db, old(c.state), c.online, listed.value, now)
    ensures var listed := PostDao.GetPostList(db, page, size, ranked);
      listed.Ok? && listed.value != [] && r.Ok? && c.online ==>
        WrittenBack(old(c.state).strings, c.state.strings,
                    Encodable(UsersFetched(db, old(c.state), true, FirstSeen(Authors(listed.value)), now).value, EncodeUser),
                    Encodable(CommunitiesFetched(db, old(c.state), true, FirstSeen(CommunitiesOf(listed.value)), now).value, EncodeCommunity),
                    now)
  {
    var listed := PostDao.GetPostList(db, page, size, ranked);
    if listed.Err? {
      return Err(listed.error);
    }
    var posts := listed.value;
    if |posts| == 0 {
      return Ok([]);
    }
    var userIDs, communityIDs := DistinctIDs(posts);
    ghost var s0 := c.state;
    var users := FetchUsers(db, c, stats, userIDs, now);
    if users.Err? {
      return Err(users.error);
    }
    ghost var s1 := c.state;
    if c.online {
      UserWritesKeepCommunityReads(s0, s1, UsersFetched(db, s0, true, userIDs, now).value, true, communityIDs, now);
    }
    var communities := FetchCommunities(db, c, stats, communityIDs, now);
    if communities.Err? {
      return Err(communities.error);
    }
    if c.online {
      WrittenBackComposes(s0.strings, s1.strings, c.state.strings,
                          Encodable(UsersFetched(db, s0, true, userIDs, now).value, EncodeUser),
                          Encodable(CommunitiesFetched(db, s1, true, communityIDs, now).value, EncodeCommunity), now);
    }
    var data := AssembleDetails(posts, users.value, communities.value);
    r := Ok(data);
  }

  /** One kind's side of the cached read when the database is up and the batch fits: the
      database batch succeeds, and each asked id is in the merged map exactly when the
      cache hit it or the table has it, holding the table's row or the cached value. */
  lemma MergedRead<T>(s: State, online: bool, prefix: string, ids: seq<int>, now: int, decode: Payload -> Option<T>,
                      table: map<int, T>, project: T -> T, what: string)
    requires |ids| <= MaxBatchSize
    ensures FetchMissed(true, table, CacheSplit(s, online, prefix, ids, now, decode).1, project, what).Ok?
    ensures var split := CacheSplit(s, online, prefix, ids, now, decode);
      var merged := split.0 + FetchMissed(true, table, split.1, project, what).value;
      forall x :: x in ids ==>
        && (x in merged <==> x in table || (online && Lookup(s, true, CacheKey(prefix, x), now, decode).Hit?))
        && (x in merged ==> (x in table && merged[x] == project(table[x])) || (online && Lookup(s, true, CacheKey(prefix, x), now, decode) == Hit(merged[x])))
  {
    var split := CacheSplit(s, online, prefix, ids, now, decode);
    if online {
      var outs := Outcomes(s, prefix, ids, now, decode);
      OutcomesCoherent(s, prefix, ids, now, decode);
      HitsSpec(ids, outs);
      MissedSpec(ids, outs);
      TallySpec(ids, outs);
      forall x | x in ids
        ensures !Lookup(s, true, CacheKey(prefix, x), now, decode).Hit? ==> x in split.1 && x !in split.0
        ensures Lookup(s, true, CacheKey(prefix, x), now, decode).Hit? ==>
          x in split.0 && split.0[x] == Lookup(s, true, CacheKey(prefix, x), now, decode).value
      {
        var k := FirstIndex(ids, x);
        assert outs[k] == Lookup(s, true, CacheKey(prefix, x), now, decode);
      }
    }
  }

  /** The cache agrees with the database: every cached author exists there under the same
      name, and every cached community is the database's row. */
  ghost predicate CacheAgrees(db: Database, s: State, now: int)
    reads db
  {
    && (forall id :: Lookup(s, true, UserKey(id), now, DecodeUser).Hit? ==>
          id in db.users && Lookup(s, true, UserKey(id), now, DecodeUser).value.username == db.users[id].username)
    && (forall id :: Lookup(s, true, CommunityKey(id), now, DecodeCommunity).Hit? ==>
          id in db.communities && Lookup(s, true, CommunityKey(id), now, DecodeCommunity).value == db.communities[id])
  }

  /** With the database up and a cache that agrees with it, the cached list read answers
      exactly what the uncached batched read's assembly answers, whatever the cache holds
      or whether Redis is reachable; the 1000-id limit applies to the distinct ids. */
  lemma CachedReadAgrees(db: Database, s: State, online: bool, posts: seq<Post>, now: int)
    requires db.online && posts != []
    requires |FirstSeen(Authors(posts))| <= MaxBatchSize && |FirstSeen(CommunitiesOf(posts))| <= MaxBatchSize
    requires CacheAgrees(db, s, now)
    ensures CachedRead(db, s, online, posts, now) ==
      Ok(Assemble(posts, Found(db.users, Authors(posts), NoPassword), Found(db.communities, CommunitiesOf(posts), Same)))
  {
    var userIDs, communityIDs := FirstSeen(Authors(posts)), FirstSeen(CommunitiesOf(posts));
    FirstSeenSpec(Authors(posts));
    FirstSeenSpec(CommunitiesOf(posts));
    MergedRead(s, online, KeyUserInfoPF, userIDs, now, DecodeUser, db.users, NoPassword, "batch get users failed");
    MergedRead(s, online, KeyCommunityInfoPF, communityIDs, now, DecodeCommunity, db.communities, Same, "batch get communities failed");
    var users := CacheSplit(s, online, KeyUserInfoPF, userIDs, now, DecodeUser).0 + UsersFetched(db, s, online, userIDs, now).value;
    var communities := CacheSplit(s, online, KeyCommunityInfoPF, communityIDs, now, DecodeCommunity).0
                       + CommunitiesFetched(db, s, online, communityIDs, now).value;
    var allUsers, allCommunities := Found(db.users, Authors(posts), NoPassword), Found(db.communities, CommunitiesOf(posts), Same);
    forall i | 0 <= i < |posts|
      ensures posts[i].authorId in users <==> posts[i].authorId in allUsers
      ensures posts[i].authorId in users ==> users[posts[i].authorId].username == allUsers[posts[i].authorId].username
      ensures posts[i].communityId in communities <==> posts[i].communityId in allCommunities
      ensures posts[i].communityId in communities ==> communities[posts[i].communityId] == allCommunities[posts[i].communityId]
    {
      assert Authors(posts)[i] == posts[i].authorId && posts[i].authorId in userIDs;
      assert CommunitiesOf(posts)[i] == posts[i].communityId && posts[i].communityId in communityIDs;
    }
    AssembleLocal(posts, users, allUsers, communities, allCommunities);
  }

  /** After a successful cached read with Redis up, the next reads (within the hour for
      authors, two hours for communities) find every record the database returned. */
  lemma WrittenBackServes(s: State, s': State, users: map<int, User>, communities: map<int, CommunityDetail>, now: int, t: int)
    requires WrittenBack(s.strings, s'.strings, Encodable(users, EncodeUser), Encodable(communities, EncodeCommunity), now)
    requires now <= t
    ensures forall id :: id in users && t < now + UserInfoCacheExpire ==>
      Lookup(s', true, UserKey(id), t, DecodeUser) == Hit(NoPassword(users[id]))
    ensures forall id :: id in communities && EncodeCommunity(communities[id]).Ok? && t < now + CommunityInfoCacheExpire ==>
      Lookup(s', true, CommunityKey(id), t, DecodeCommunity) == Hit(communities[id])
  {
    forall id | id in users && t < now + UserInfoCacheExpire
      ensures Lookup(s', true, UserKey(id), t, DecodeUser) == Hit(NoPassword(users[id]))
    {
      assert Live(s', UserKey(id), t) == Some(UserJson(NoPassword(users[id])));
    }
    forall id | id in communities && EncodeCommunity(communities[id]).Ok? && t < now + CommunityInfoCacheExpire
      ensures Lookup(s', true, CommunityKey(id), t, DecodeCommunity) == Hit(communities[id])
    {
      CodecRoundTrip(PostDetail("", Post(0, 0, 0, 0, "", "", ZeroTime), ZeroCommunity), User(0, "", ""), communities[id]);
      assert Live(s', CommunityKey(id), t) == Some(EncodeCommunity(communities[id]).value);
    }
  }
}

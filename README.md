# Bluebell data-access core in Dafny

Bluebell is a Reddit-style forum backend written in Go (gin, MySQL through sqlx, Redis
through go-redis). This project models the layer between its HTTP handlers and its two
stores, and proves properties of that model:

- the **vote ledger** in Redis (`dao/redis/vote.go`): a per-(post, user) vote in
  {-1, 0, 1}, a one-week voting window, the rejection of repeated votes, and the score
  diff of 432 per vote step;
- the **MySQL DAOs** for users, communities and posts (`dao/mysql/user.go`,
  `community.go`, `post.go`), including the two **batch fetchers**. These are the N+1
  fix: a size limit, first-seen deduplication, one placeholder per id, and rows keyed by
  id;
- the **cache-aside store** (`dao/redis/cache.go`): single and batch get/set/delete with
  hit, miss and error counters, password scrubbing, and the stampede lock;
- the **post service** (`logic/post.go`): creation, the detail read, the three list reads
  (per post, batched, and batched behind the cache) and the cached detail read;
- the **connection-pool bookkeeping** (`dao/mysql/pool.go`) and its package-level
  fallbacks (`dao/mysql/mysql.go`);
- the **Redis key namespace** (`dao/redis/keys.go`), the **response codes**
  (`controller/code.go`) and `removeTopStruct` (`controller/user.go`).

Modelling choices:

- MySQL tables are maps inside a `Database` object (`mysql_store.dfy`).
- The Redis server is a `State` of strings with expiry times, sorted sets and sets, held
  by a `Client` (`redis_client.dfy`).
- A failed backend is an `online == false` flag. A Redis pipeline with no commands makes
  no round trip, so its Exec returns no error even then. The clock, the fresh post id, md5 and
  the connect/ping/close outcomes of pools are parameters.
- JSON payloads are tagged values: decoding an encoding gives back the value.
  Marshalling fails only for timestamps outside years 0 to 9999.
- Integers are unbounded. The float64 vote scores only ever hold integers, so they are
  `int`.

One module per source file:

| file | module |
|---|---|
| `wrappers.dfy` | `Wrappers` |
| `models.dfy` | `Models` |
| `keys.dfy` | `Keys` |
| `codes.dfy` | `Codes` |
| `fields.dfy` | `FieldNames` |
| `redis_client.dfy` | `RedisClient` |
| `vote.dfy` | `Vote` |
| `cache.dfy` | `Cache` |
| `pool.dfy` | `Pool` |
| `mysql_store.dfy` | `MySqlStore` |
| `batch.dfy` | `Batch` (the steps both batch fetchers share) |
| `user_dao.dfy` | `UserDao` |
| `community_dao.dfy` | `CommunityDao` |
| `post_dao.dfy` | `PostDao` |
| `post_logic.dfy` | `PostLogic` |

The model follows the code where it departs from its own comments or names:

- The batch size limit counts the raw ids, duplicates included (dao/mysql/user.go:90-93),
  and a batch over the limit is an error.
- `TryLock`'s comment says SET NX, but it sends a plain SET (dao/redis/cache.go:389-390).
- The community detail read never returns an error, because `err` is shadowed inside its
  `if` (dao/mysql/community.go:35-41).
- The vote store's per-community set is keyed by the post id (dao/redis/vote.go:56).
- `encryptPassword` stores the password's own bytes followed by the secret's digest
  (dao/mysql/user.go:44-49); insert and login use it as written.

## Model

| member | source | states |
|---|---|---|
| Keys.RedisKey | dao/redis/keys.go:26-28 | the key is "bluebell:" followed by the argument |
| Keys.RedisKeyInjective | dao/redis/keys.go:26-28 | distinct arguments give distinct keys |
| Keys.Decimal | dao/redis/cache.go:40 | FormatInt(n, 10) is non-empty and starts with '-' exactly for negative n |
| Keys.DecimalInjective | dao/redis/cache.go:40 | distinct ids have distinct decimal forms |
| Keys.CachePrefixesPrefixFree | dao/redis/keys.go:15-22 | the post, user, community and lock prefixes are pairwise distinct, and none is a prefix of another |
| Keys.CacheKindsNeverCollide | dao/redis/keys.go:15-22 | keys of two different kinds never collide, whatever follows the prefixes |
| Keys.CacheKeyInjective | dao/redis/keys.go:15-17 | within one kind, equal keys mean equal ids |
| Keys.PostVotedKey | dao/redis/keys.go:10 | the vote-record key is "bluebell:post:voted:" + postID |
| Keys.PostVotedKeyInjective | dao/redis/keys.go:10 | distinct posts have distinct vote-record keys |
| Keys.VoteKeysDistinct | dao/redis/keys.go:7-10 | a vote-record key differs from the score and time keys, which differ from each other |
| Codes.Msg | controller/code.go:30-35 | a mapped code gives its message; "unknown" is returned exactly for codes absent from the map |
| Codes.CodesConsecutive | controller/code.go:6-17 | there are eight codes, each 1000 + its position in declaration order |
| Codes.EveryDeclaredCodeHasMessage | controller/code.go:19-28 | the map holds exactly the declared codes, so Msg never answers "unknown" for them; Msg(CodeSuccess) is "success" |
| FieldNames.IndexOf | controller/user.go:119 | strings.Index: -1 exactly when the character is absent, else its first position |
| FieldNames.StripTopSpec | controller/user.go:119 | a name without '.' is kept; otherwise only the text after the first '.' remains |
| FieldNames.StrippedNamesSize | controller/user.go:116-122 | at most as many stripped names as fields, and exactly as many when stripping is injective |
| FieldNames.RemoveTopStruct | controller/user.go:116-122 | the keys are the stripped names; each value is the message of a field with that stripped name; the size is at most the input's, and equal when stripping is injective |
| Vote.ScoreDiff | dao/redis/vote.go:82-92 | all three branches compute (value - oldValue) * 432 |
| Vote.ScoreDiffTable | dao/redis/vote.go:82-92 | for votes in {-1, 0, 1} the diff is +-432 or +-864 |
| Vote.VoteCmds | dao/redis/vote.go:95-110 | the pipeline is ZINCRBY of the post's score by the diff, then ZREM of the record for 0 or ZADD of the value otherwise |
| Vote.VoteForPost | dao/redis/vote.go:64-115 | a rejection writes nothing and returns its error; with Redis down nothing is written; otherwise the pipeline is applied |
| Vote.ExpiryRule | dao/redis/vote.go:67-70 | the vote is rejected as expired exactly when now - postTime > 604800; a post exactly one week old is accepted |
| Vote.UnknownPostExpired | dao/redis/vote.go:67-70 | a post without a time record (or an unreachable Redis) reads as time 0, so the vote is rejected as expired |
| Vote.RepeatRule | dao/redis/vote.go:74-79 | within the window, the vote is rejected as repeated exactly when it equals the stored vote (absent = 0), including a cancel with no vote |
| Vote.PlanErrors | dao/redis/vote.go:36-39 | the only rejections are the two declared error values |
| Vote.AcceptedDiff | dao/redis/vote.go:82-92 | an accepted vote moves the score by one of +-432 or +-864 |
| Vote.VoteEffectObserved | dao/redis/vote.go:95-114 | after an accepted vote, only this post's score changes, by the diff; the user's record is removed for 0 and set otherwise; other users, other posts, strings and sets are unchanged |
| Vote.CreatePostCmds | dao/redis/vote.go:41-61 | creation writes the post time and the initial score as now, and adds the post to the set keyed by the post id |
| Vote.CreatePost | dao/redis/vote.go:41-61 | with Redis up the three writes are applied together; with Redis down nothing is written |
| Vote.VotePreservesLedger | dao/redis/vote.go:98-110 | an accepted vote keeps score = initial score + 432 * the sum of recorded votes, for every post |
| Vote.CreatePreservesLedger | dao/redis/vote.go:45-54 | creation establishes the ledger for the new post (initial score = now) and keeps it for every other post |
| Cache.CacheStats.Record | dao/redis/cache.go:39-68 | exactly one of the hit, miss and error counters goes up, by one |
| Cache.Interpret | dao/redis/cache.go:43-66 | a missing key is a miss; a backend error and an undecodable payload are errors; anything else is a hit with the decoded value |
| Cache.EncodePost | dao/redis/cache.go:71-78 | a detail marshals exactly when its timestamps are in range, and otherwise fails with a marshal error |
| Cache.CodecRoundTrip | dao/redis/cache.go:123-146 | decoding an encoded detail or community gives it back; a user comes back with an empty password |
| Cache.GetPostDetailFromCache | dao/redis/cache.go:39-68 | the answer is the lookup of the post's key, and the counter of that outcome goes up by one |
| Cache.GetUserFromCache | dao/redis/cache.go:95-120 | the same for a user's key |
| Cache.GetCommunityFromCache | dao/redis/cache.go:149-174 | the same for a community's key |
| Cache.SetPostDetailToCache | dao/redis/cache.go:71-92 | a detail that marshals is stored for 30 minutes; a marshal failure writes nothing; Redis down writes nothing |
| Cache.SetUserToCache | dao/redis/cache.go:123-146 | a copy with an empty password is stored for an hour |
| Cache.SetCommunityToCache | dao/redis/cache.go:177-196 | a community that marshals is stored for two hours |
| Cache.DeletePostCache | dao/redis/cache.go:359-362 | the post's key is deleted when Redis is up |
| Cache.DeleteUserCache | dao/redis/cache.go:365-368 | the user's key is deleted when Redis is up |
| Cache.DeleteCommunityCache | dao/redis/cache.go:371-374 | the community's key is deleted when Redis is up |
| Cache.SetThenGet | dao/redis/cache.go:71-92 | a read of a written key before its expiry hits the written value; at or after the expiry it misses |
| Cache.CacheRoundTrips | dao/redis/cache.go:15-17 | each kind, written and read back within its TTL, gives the value back (a user without password) |
| Cache.DeleteThenGet | dao/redis/cache.go:359-374 | after a delete the key misses |
| Cache.OtherKeysUnaffected | dao/redis/cache.go:359-374 | a set or delete of one key leaves every other key's read unchanged |
| Cache.CacheKeysDistinct | dao/redis/keys.go:15-22 | post, user, community and lock keys never collide, and distinct ids of one kind have distinct keys |
| Cache.HitsSpec | dao/redis/cache.go:218-246 | an id is among the cached ones exactly when its read hit, with the decoded value |
| Cache.MissedSpec | dao/redis/cache.go:218-246 | an id is among the missed ones exactly when its read did not hit (absent or undecodable) |
| Cache.TallySpec | dao/redis/cache.go:218-246 | hits + misses + errors equals the number of ids, and the missed list has misses + errors entries |
| Cache.BatchGetUsersFromCache | dao/redis/cache.go:199-247 | empty input gives nothing; Redis down gives no hits and every id missed; otherwise hits and missed in input order, with the counters |
| Cache.BatchGetCommunitiesFromCache | dao/redis/cache.go:283-327 | the same for communities |
| Cache.KeysInjective | dao/redis/cache.go:250-280 | distinct ids have distinct keys, so the order of the map walk does not matter |
| Cache.BatchSetUsersToCache | dao/redis/cache.go:250-280 | an empty map writes nothing; otherwise each user is stored without password for an hour and no other key changes; with Redis down the error is Backend only when some user marshals, since an empty pipeline makes no round trip |
| Cache.BatchSetCommunitiesToCache | dao/redis/cache.go:330-356 | each community that marshals is stored for two hours, the others are skipped, and no other key changes; with Redis down the error is Backend only when some community marshals, since an empty pipeline makes no round trip |
| Cache.BatchSetThenGet | dao/redis/cache.go:250-280 | after a batch write, a written record reads back and keys outside the batch read as before |
| Cache.BatchSetUsersThenGet | dao/redis/cache.go:259-263 | a user of the batch reads back without its password |
| Cache.TryLockAsWritten | dao/redis/cache.go:386-397 | as written: with Redis up every attempt acquires the lock, held or not |
| Cache.AsWrittenLockExcludesNobody | dao/redis/cache.go:386-397 | two attempts in a row both leave the lock set and both succeed |
| Cache.TryLock | dao/redis/cache.go:386-397 | corrected (SET NX): the lock is acquired exactly when Redis is up and no live lock exists |
| Cache.LockExcludes | dao/redis/cache.go:386-397 | after an acquire, further attempts within 10 s change nothing; the lock expires after 10 s; a release frees it |
| Cache.ReleaseLock | dao/redis/cache.go:400-403 | the lock key is deleted unconditionally |
| Pool.ConnectedReadPoolsSpec | dao/mysql/pool.go:116-137 | the kept pools are exactly the read hosts that connect, no more pools than hosts; none is kept exactly when every host fails |
| Pool.ReadIndex | dao/mysql/pool.go:186-192 | the chosen read pool index is in range |
| Pool.ReadIndexRotates | dao/mysql/pool.go:186-192 | one more nanosecond selects the next pool, round-robin |
| Pool.DBManager.InitWriteDB | dao/mysql/pool.go:99-113 | the write pool is set exactly when it connects |
| Pool.DBManager.InitReadDBs | dao/mysql/pool.go:116-137 | the connected read pools are appended; it errs exactly when the manager has no read pool afterwards |
| Pool.DBManager.Init | dao/mysql/pool.go:73-96 | it fails exactly when the write pool fails; a read-pool failure is not an error |
| Pool.DBManager.GetWriteDB | dao/mysql/pool.go:165-174 | returns the write pool; only the write counter goes up, by one |
| Pool.DBManager.GetReadDB | dao/mysql/pool.go:177-193 | the write pool when there are no read pools, else the pool at time mod count; only the read counter goes up |
| Pool.DBManager.RecordQueryTime | dao/mysql/pool.go:196-217 | the slow counter goes up exactly for durations over 1 s, the error counter exactly on error, and nothing else changes |
| Pool.DBManager.GetStats | dao/mysql/pool.go:220-265 | the snapshot is a fresh copy of the refreshed counters |
| Pool.DBManager.HealthCheck | dao/mysql/pool.go:292-307 | a missing write pool is a nil dereference (the source panics); otherwise it fails exactly when the write pool's ping fails, and read pools never decide |
| Pool.DBManager.Close | dao/mysql/pool.go:310-335 | every pool is closed even after failures, and it succeeds exactly when none failed |
| Pool.FailedSpec | dao/mysql/pool.go:310-335 | the failures are exactly the pools whose close failed |
| Pool.Registry.InitAdvanced | dao/mysql/pool.go:59-70 | runs once; installs the manager before initialising it, and errs exactly when the write pool fails |
| Pool.Registry.Init | dao/mysql/mysql.go:15-36 | a failed advanced init falls back to the raw pool, and errs when that fails too |
| Pool.Registry.InitAdvancedFixed | dao/mysql/pool.go:59-70 | corrected: the manager is installed only when its init succeeds |
| Pool.Registry.InitFixed | dao/mysql/mysql.go:15-36 | corrected: success leaves a usable write handle, and the raw pool becomes that handle when the advanced init fails |
| Pool.Registry.GetWriteDB | dao/mysql/pool.go:338-343 | the raw pool without a manager, else the manager's write pool; of the manager's statistics only the write counter changes, by one |
| Pool.Registry.GetReadDB | dao/mysql/pool.go:345-350 | the raw pool without a manager, else the manager's read choice; of the manager's statistics only the read counter changes, by one |
| Pool.Registry.GetDBStats | dao/mysql/pool.go:352-357 | nothing without a manager; else the manager's statistics are refreshed (driver figures when there is a write pool, update time now) and a fresh copy of them is returned |
| Pool.Registry.RecordQueryTime | dao/mysql/pool.go:359-363 | forwards to the manager, if any |
| Pool.Registry.DBHealthCheck | dao/mysql/pool.go:365-370 | pings the write handle in use: the raw pool without a manager, else the manager's check; a missing handle is a nil dereference |
| Pool.Registry.Close | dao/mysql/mysql.go:39-52 | a manager closes its pools and never the raw pool; otherwise the raw pool is closed |
| Pool.FailedAdvancedInitHidesRawPool | dao/mysql/pool.go:338-343 | as written: the enhanced pool's connect fails and the fallback connect to the same MySQL server succeeds (the two attempts are independent inputs, `WritePool` and `RawPool` of one host); Init succeeds, yet the write handle is nil and the health check dereferences it (pool.go:365-370 with 292-294) |
| Pool.FailedAdvancedInitFallsBack | dao/mysql/pool.go:338-343 | corrected: in the same situation the write handle is the raw pool |
| MySqlStore.MarksConcat | dao/mysql/user.go:106 | placeholders of a concatenation add up |
| MySqlStore.SelectIn | dao/mysql/user.go:113-119 | the query fails exactly when the server is down or placeholders and args differ in number; each row belongs to an asked id, and every asked id with a row is returned |
| Batch.FirstIndex | dao/mysql/user.go:96-103 | the first position of an id |
| Batch.FirstSeenSpec | dao/mysql/user.go:96-103 | deduplication keeps exactly the input ids, each once, ordered by first occurrence |
| Batch.UniqueIDs | dao/mysql/user.go:96-103 | the set-and-append loop computes the first-seen order |
| Batch.InListMarks | dao/mysql/user.go:106 | "(?" + ",?" repeated n - 1 times + ")" has exactly n placeholders |
| Batch.Args | dao/mysql/user.go:108-112 | the argument array is the unique ids in order |
| Batch.KeyBy | dao/mysql/user.go:122-142 | every returned row is in the map under its own id |
| Batch.Found | dao/mysql/user.go:122-142 | an id is in the result exactly when it was asked for and has a row |
| Batch.KeyedRowsAreFound | dao/mysql/user.go:122-142 | the keyed rows are exactly the rows of the asked ids; missing ids are absent, not an error |
| Batch.BatchGetByIDs | dao/mysql/user.go:84-143 | empty input gives an empty map without a query; more than 1000 raw ids is an error; a query failure is a wrapped error; otherwise the found rows |
| UserDao.Utf8 | dao/mysql/user.go:48 | the UTF-8 bytes of a string, one to four per character |
| UserDao.Hex | dao/mysql/user.go:48 | hex encoding doubles the length |
| UserDao.HexRoundTrip | dao/mysql/user.go:48 | hex decoding inverts hex encoding |
| UserDao.HexConcat | dao/mysql/user.go:48 | hex encoding distributes over concatenation |
| UserDao.AsWrittenHashRevealsPassword | dao/mysql/user.go:44-49 | as written: the stored value is the password's bytes in hex followed by md5(secret) |
| UserDao.EncryptPassword | dao/mysql/user.go:44-49 | corrected: 32 hex digits of md5(secret + password) |
| UserDao.CheckUserExist | dao/mysql/user.go:20-31 | the user-exists error exactly when some user has the name; a query failure propagates |
| UserDao.InsertUser | dao/mysql/user.go:34-42 | the caller's record and the stored row carry the given transformation of the password (the source's is `SourceHash`, encryptPassword as written); a duplicate id or name is refused and changes nothing |
| UserDao.Login | dao/mysql/user.go:51-71 | unknown name gives user-not-exist; otherwise success exactly when the transformed password (the source's `SourceHash`) equals the stored column, else invalid-password |
| UserDao.LoginAfterInsert | dao/mysql/user.go:34-71 | whatever the transformation, a user stored with it logs in with the same password |
| UserDao.SourceLoginAfterInsert | dao/mysql/user.go:34-71 | with encryptPassword as written, the insert-then-login round trip succeeds, and the stored column's leading hex decodes to the password itself |
| UserDao.CorrectedLoginAfterInsert | dao/mysql/user.go:44-49 | corrected: the round trip succeeds too, and the stored column is 32 hex digits of md5(secret + password) |
| UserDao.GetUserByID | dao/mysql/user.go:74-80 | no row gives sql.ErrNoRows; the row comes back without its password |
| UserDao.BatchGetUsersByIDs | dao/mysql/user.go:84-143 | the batch contract for users, rows without password, errors wrapped with "batch get users failed" |
| UserDao.BatchAgreesWithSingle | dao/mysql/user.go:74-143 | the batch finds an id exactly when the single read does, with the same row |
| CommunityDao.GetCommunityList | dao/mysql/community.go:12-24 | never an error; with the server up, exactly the communities, each once |
| CommunityDao.GetCommunityDetailByID | dao/mysql/community.go:26-42 | never an error; the row, or the zero-valued community when there is none |
| CommunityDao.BatchGetCommunitiesByIDs | dao/mysql/community.go:45-109 | the batch contract for communities, errors wrapped with "batch get communities failed" |
| CommunityDao.BatchVersusSingle | dao/mysql/community.go:26-109 | a found id has the single read's row; an id not found reads singly as the zero community |
| PostDao.CreatePost | dao/mysql/post.go:12-21 | the post is inserted with the default status and the current time; a duplicate id is refused |
| PostDao.GetPostByID | dao/mysql/post.go:24-40 | no row maps to the invalid-id error; other failures propagate |
| PostDao.CreatedPostReadsBack | dao/mysql/post.go:12-40 | a created post reads back with its default status and creation time |
| PostDao.OffsetSign | dao/mysql/post.go:51 | the offset (page - 1) * size is negative exactly when size > 0 and page < 1, or size < 0 and page > 1 |
| PostDao.GetPostList | dao/mysql/post.go:42-54 | the page holds at most size rows, starting at (page - 1) * size, newest first; a full page when enough rows remain; a negative LIMIT is an error |
| PostDao.PageRefused | dao/mysql/post.go:42-54 | with the server up, only a negative size, or a positive size with page < 1, is refused |
| PostDao.RowOnPage | dao/mysql/post.go:42-54 | row i is at position i mod size of page i / size + 1 |
| PostDao.PresentRows | dao/mysql/post.go:57-75 | each listed row belongs to an asked id |
| PostDao.PresentComplete | dao/mysql/post.go:57-75 | every asked id with a row is listed |
| PostDao.PresentOrdered | dao/mysql/post.go:57-75 | rows come in the order of the first position of their id |
| PostDao.GetPostListByIDs | dao/mysql/post.go:57-75 | an empty list is an error; otherwise exactly the posts of the asked ids, in the order of the given ids |
| PostLogic.CreatePost | logic/post.go:15-26 | the post gets the fresh id; a failed insert returns its error and never touches Redis; otherwise the vote store is initialised |
| PostLogic.GetPostByID | logic/post.go:29-62 | post, author and community joined; the first failed lookup (post, then author) aborts; a missing community gives the zero community (queryPostDetailFromDB, logic/post.go:457-491, is the same composition) |
| PostLogic.GetPostList | logic/post.go:64-98 | one detail per post in page order when every author exists; otherwise the author lookup's error and no data |
| PostLogic.AssembleConcat | logic/post.go:334-359 | assembly works post by post: the details of a list are those of its parts, in order |
| PostLogic.AssembleLength | logic/post.go:334-359 | at most one detail per post |
| PostLogic.AssembleSound | logic/post.go:334-359 | each detail belongs to a listed post whose author and community are present, with that author's name and that community |
| PostLogic.AssembleComplete | logic/post.go:334-359 | with every author and community present, one detail per post, in post order |
| PostLogic.AssembleLocal | logic/post.go:334-359 | assembly depends only on the listed posts' authors and communities |
| PostLogic.AssembleDetails | logic/post.go:334-359 | the loop with its two `continue`s computes the assembly |
| PostLogic.ListedIDs | logic/post.go:313-316 | one author id and one community id per post, duplicates kept |
| PostLogic.GetPostListOptimized | logic/post.go:297-369 | page error propagates; no posts gives an empty list; more than 1000 posts is an error; otherwise the assembly over the two batches |
| PostLogic.OptimizedAgreesWithPlain | logic/post.go:297-369 | with every author and community present, the batched list equals the per-post list |
| PostLogic.MissingCommunitySkipped | logic/post.go:345-351 | a post without its community is kept by the per-post read (zero community) but skipped by the batched read |
| PostLogic.GetPostByIDWithCache | logic/post.go:372-454 | a hit is returned without touching the database; otherwise the database's answer; two reads are counted on a miss; with Redis up every miss holds the plain-SET lock, so the detail is written back and the lock deleted whatever lock was live |
| PostLogic.GetPostByIDWithCacheFixed | logic/post.go:372-454 | corrected (SET NX lock): the same answer and counters, but a caller that finds the lock live writes nothing |
| PostLogic.LockLeavesDetail | logic/post.go:392-393 | taking the lock, with the plain SET or with SET NX, does not change what the detail's read finds |
| PostLogic.PostKeyIsNoLockKey | logic/post.go:391 | a post's lock key "bluebell:cache:lock:post:<id>" is never its detail key |
| PostLogic.ReadAsHolder | logic/post.go:397-431 | the holder returns the database's answer, writes back a found detail and releases the lock |
| PostLogic.LockHolderFillsCache | logic/post.go:397-431 | with either lock command and whatever lock was live before, after the holder's call the lock is free and the found detail is served from the cache for 30 minutes |
| PostLogic.DistinctIDs | logic/post.go:509-523 | the authors and communities each once, in first-seen order |
| PostLogic.FetchUsers | logic/post.go:526-558 | a failed cache read marks every id missed; the database is asked only for missed ids; found users are written back; the merge lets the database override |
| PostLogic.FetchCommunities | logic/post.go:561-593 | the same for communities |
| PostLogic.UserWritesKeepCommunityReads | logic/post.go:544-567 | the author write-back does not change what the community cache read finds |
| PostLogic.WrittenBackComposes | logic/post.go:544-583 | the two write-backs together store exactly the fetched users and communities |
| PostLogic.GetPostListOptimizedWithCache | logic/post.go:494-629 | page error propagates; no posts gives an empty list; otherwise the cached read's answer, and with Redis up the fetched records are written back |
| PostLogic.MergedRead | logic/post.go:552-558 | an id is in the merged map exactly when cached or in the table, holding the table's row or the cached value |
| PostLogic.CachedReadAgrees | logic/post.go:494-629 | with the database up and a cache that agrees with it, the cached list equals the uncached assembly, whether Redis is up or not; the 1000-id limit counts distinct ids |
| PostLogic.WrittenBackServes | logic/post.go:544-583 | after the write-back, the next reads within the TTLs find every fetched author (without password) and community |

## Findings

| source | as written | input that shows it | evidently intended | confidence | as-written member | corrected member |
|---|---|---|---|---|---|---|
| dao/mysql/user.go:44-49 | `h.Sum([]byte(oPassword))` appends md5(secret) to the password's bytes, and the hex of that is stored | password "abc" is stored as "616263" followed by the hex of md5("xp"), so the password can be read back from the hash | store hex(md5(secret + password)) | high, not executed | UserDao.SourceLoginAfterInsert | UserDao.CorrectedLoginAfterInsert |
| dao/mysql/pool.go:59-70 | `dbManager` is assigned before `init()` runs and stays set when init fails | both connects go to the same cfg.Host:cfg.Port/cfg.DB and differ only in the DSN's timeouts (pool.go:99-113, mysql.go:26-27); a transient failure, such as a server still starting or a connect slower than the 10 s `timeout`, makes the first fail and the fallback succeed: Init returns nil, yet GetWriteDB returns the manager's nil write pool instead of the raw `db` | install the manager only on success, so the package-level fallback to `db` applies | high, not executed | Pool.FailedAdvancedInitHidesRawPool | Pool.FailedAdvancedInitFallsBack |
| dao/redis/cache.go:386-397 | `client.Set` without NX, whose reply is always "OK" | two requests for the same missing post within 10 s both acquire the lock and both go to the database | SET NX EX: acquire only when no live lock exists | high, not executed | Cache.AsWrittenLockExcludesNobody | Cache.LockExcludes, PostLogic.GetPostByIDWithCacheFixed |

The operations that model the source keep its behaviour: `PostLogic.GetPostByIDWithCache`
takes the lock with `Cache.TryLockAsWritten`, `UserDao.InsertUser` and `UserDao.Login` are
used with `UserDao.SourceHash`, and `Pool.Registry.Init` installs the manager before its
init. The corrected twins are `PostLogic.GetPostByIDWithCacheFixed`, the hash
`UserDao.EncryptPassword` and `Pool.Registry.InitFixed`.

## Left out

Deliberately weaker contracts:

- PostLogic.GetPostByIDWithCache: no other client runs between the two cache reads of one call, so the double-check hit (logic/post.go:406-411) cannot occur. Under the plain-SET lock the branch without the lock (logic/post.go:432-453) runs only with Redis down, where its retry read fails. The 50 ms sleep is not modelled: the retry reads at the same instant.
- PostLogic.GetPostByIDWithCacheFixed: the same single-client reading, so its retry hit (logic/post.go:436-441) is present but unreachable.
- PostLogic.GetPostListOptimizedWithCache: the hit, miss and error counters of its batch cache reads are not stated. Its cache state after a database batch error is stated only for sorted sets and sets.
- PostLogic.GetPostListOptimizedWithCache: the merge of the two maps is map union with the database side winning. This is what the two Go range loops produce, whatever order they walk the maps in.
- Vote.VoteForPost: user and post ids are strings, as the Redis layer receives them. The conversion in logic/vote.go is not part of this model.

Concurrency and the runtime:

- The cache write-backs that the source starts in goroutines are applied synchronously, before the call returns.
- `GetPostByIDConcurrent` (goroutines and a WaitGroup) is not modelled.
- `updateStatsRoutine`, the mutexes and `sync.Once` are not modelled; `sync.Once` becomes a `once` flag.
- `configureDB` sets driver pool sizes and is not modelled.
- Floats are not modelled: the average query time, the read/write ratio and the hit rates.
- `GetCacheStats` returns the three global counter objects; the model passes one counter object per call instead.
- `WarmUpCache` does nothing and is not modelled.

Foreign calls and inputs:

- sqlx and the MySQL driver are maps in a `Database`. Every query goes to that one `Database`, whose `online` flag says whether it answers. The model does not say which handle a query uses. In the source, the user queries use the package-level `db` (dao/mysql/user.go:23-116), while the community and post queries use `GetReadDB()` or `GetWriteDB()` (dao/mysql/community.go:16-81, dao/mysql/post.go:17-68). So one handle failing while another answers is not modelled. Nor is the unset `db` after a successful advanced init (dao/mysql/mysql.go:17-20), on which the user queries would dereference nil. One consequence: in `PostLogic.GetPostListOptimized`, a community batch error after a successful user batch (logic/post.go:326-330) cannot occur.
- The unique index on `username` is assumed. It is the `usernames` map kept in step with the user table.
- The default `status` column value is a parameter.
- The list query's `ORDER BY create_time DESC` is a `ranked` sequence that lists the table newest first.
- go-redis is an abstract server state.
- JSON is a tagged payload.
- md5 is a function parameter.
- `snowflake.GenID` is the `newID` parameter.
- `time.Now` is the `now` parameter. The read-pool choice uses nanoseconds as a separate parameter.
- zap logging is not modelled.
- The ids of `GetPostListByIDs` arrive as strings in the source. The model takes them as integers, and `FIND_IN_SET` ordering is ordering by the first position.

Other code that is not part of this model:

- 64-bit overflow of counters and ids is not modelled: integers are unbounded.
- `GetPostList2`, `GetCommunityPostList` and `GetPostListNew` (logic/post.go:100-228) depend on Redis readers and a model field that are not part of this model.
- The HTTP handlers, routing and `main.go` are not part of this model.

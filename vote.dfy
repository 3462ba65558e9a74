/** The vote ledger in Redis (dao/redis/vote.go): a post's creation time and
    score live in two sorted sets keyed by post id, and each post has a sorted
    set of the votes cast on it (user id -> direction). */
module Vote {
  import opened Wrappers
  import opened Keys
  import opened RedisClient

  const OneWeekInSeconds := 7 * 24 * 3600
  /** 86400 / 200: two hundred up-votes keep a post on top for one more day. */
  const ScorePerVote := 432

  function TimeKey(): string { RedisKey(KeyPostTimeZSet) }
  function ScoreKey(): string { RedisKey(KeyPostScoreZSet) }

  /** The score change of replacing vote `oldValue` by `value`; the three branches
      of the source (cancel, first vote, change of vote) all come to the same product. */
  function ScoreDiff(value: int, oldValue: int): (diff: int)
    ensures diff == (value - oldValue) * ScorePerVote
  {
    if value == 0 then -oldValue * ScorePerVote
    else if oldValue == 0 then value * ScorePerVote
    else (value - oldValue) * ScorePerVote
  }

  /** The six transitions between the directions 1, 0 and -1 move the score by one or two votes' worth. */
  lemma ScoreDiffTable()
    ensures ScoreDiff(1, 0) == 432 && ScoreDiff(-1, 0) == -432
    ensures ScoreDiff(0, 1) == -432 && ScoreDiff(0, -1) == 432
    ensures ScoreDiff(1, -1) == 864 && ScoreDiff(-1, 1) == -864
  {
  }

  /** The commands of a successful vote: the score moves by the difference and
      the user's record is replaced (or removed, for direction 0). */
  function VoteCmds(userID: string, postID: string, value: int, oldValue: int): (cmds: seq<Cmd>)
    ensures |cmds| == 2
    ensures cmds[0] == ZIncrByCmd(ScoreKey(), postID, (value - oldValue) * ScorePerVote)
    ensures value == 0 ==> cmds[1] == ZRemCmd(PostVotedKey(postID), userID)
    ensures value != 0 ==> cmds[1] == ZAddCmd(PostVotedKey(postID), userID, value)
  {
    [ZIncrByCmd(ScoreKey(), postID, ScoreDiff(value, oldValue)),
     if value == 0 then ZRemCmd(PostVotedKey(postID), userID) else ZAddCmd(PostVotedKey(postID), userID, value)]
  }

  /** What VoteForPost decides from the server it reads (`online` false: every
      read fails and reads as 0): an error, or the transaction to run. */
  function VotePlan(s: State, online: bool, userID: string, postID: string, value: int, now: int): Result<seq<Cmd>> {
    var postTime := ScoreRead(s, online, TimeKey(), postID);
    if now - postTime > OneWeekInSeconds then Err(VoteTimeExpire)
    else
      var oldValue := ScoreRead(s, online, PostVotedKey(postID), userID);
      if value == oldValue then Err(VoteRepeated)
      else Ok(VoteCmds(userID, postID, value, oldValue))
  }

  /** VoteForPost: the checks read the server, then the score change and the
      record update run in one transaction. */
  method VoteForPost(c: Client, userID: string, postID: string, value: int, now: int) returns (err: Option<Error>)
    modifies c
    ensures c.online == old(c.online)
    ensures VotePlan(old(c.state), c.online, userID, postID, value, now).Err? ==>
      err == Some(VotePlan(old(c.state), c.online, userID, postID, value, now).error) && c.state == old(c.state)
    ensures VotePlan(old(c.state), c.online, userID, postID, value, now).Ok? && !c.online ==>
      err == Some(Backend) && c.state == old(c.state)
    ensures VotePlan(old(c.state), c.online, userID, postID, value, now).Ok? && c.online ==>
      err == None && c.state == ApplyAll(old(c.state), now, VotePlan(old(c.state), c.online, userID, postID, value, now).value)
  {
    var postTime := c.ZScoreVal(TimeKey(), postID);
    if now - postTime > OneWeekInSeconds {
      return Some(VoteTimeExpire);
    }
    var oldValue := c.ZScoreVal(PostVotedKey(postID), userID);
    if value == oldValue {
      return Some(VoteRepeated);
    }
    err := c.Exec(VoteCmds(userID, postID, value, oldValue), now);
  }

  /** The commands CreatePost queues: creation time and initial score are both
      `now`; the community set is keyed by the post id (the community id is unused). */
  function CreatePostCmds(postID: int, now: int): (cmds: seq<Cmd>)
    ensures |cmds| == 3
    ensures cmds[0] == ZAddCmd(TimeKey(), Decimal(postID), now)
    ensures cmds[1] == ZAddCmd(ScoreKey(), Decimal(postID), now)
    ensures cmds[2] == SAddCmd(RedisKey(KeyCommunitySetPF + Decimal(postID)), Decimal(postID))
  {
    [ZAddCmd(TimeKey(), Decimal(postID), now),
     ZAddCmd(ScoreKey(), Decimal(postID), now),
     SAddCmd(RedisKey(KeyCommunitySetPF + Decimal(postID)), Decimal(postID))]
  }

  /** CreatePost: register a new post in one transaction; `communityID` does not reach Redis. */
  method CreatePost(c: Client, postID: int, communityID: int, now: int) returns (err: Option<Error>)
    modifies c
    ensures c.online == old(c.online)
    ensures err == (if c.online then None else Some(Backend))
    ensures c.state == (if c.online then ApplyAll(old(c.state), now, CreatePostCmds(postID, now)) else old(c.state))
  {
    err := c.Exec(CreatePostCmds(postID, now), now);
  }

  // ---------- what a vote decides ----------

  /** The score a post has in the ledger (0 when it has none). */
  function ScoreOf(s: State, postID: string): int {
    if postID in ZSet(s, ScoreKey()) then ZSet(s, ScoreKey())[postID] else 0
  }

  /** The vote `userID` has on record for `postID` (0 when none). */
  function VoteOf(s: State, userID: string, postID: string): int {
    var z := ZSet(s, PostVotedKey(postID));
    if userID in z then z[userID] else 0
  }

  /** A vote is refused as expired exactly when more than a week has passed since
      the recorded creation time; exactly one week is still accepted. */
  lemma ExpiryRule(s: State, userID: string, postID: string, value: int, now: int)
    ensures VotePlan(s, true, userID, postID, value, now) == Err(VoteTimeExpire) <==>
      now - ScoreRead(s, true, TimeKey(), postID) > OneWeekInSeconds
  {
    VoteKeysDistinct(postID);
  }

  /** A post with no creation time, and any post while Redis is unreachable, reads as
      created at time 0, so once the clock is past one week every vote on it is refused. */
  lemma UnknownPostExpired(s: State, online: bool, userID: string, postID: string, value: int, now: int)
    requires !online || postID !in ZSet(s, TimeKey())
    requires now > OneWeekInSeconds
    ensures VotePlan(s, online, userID, postID, value, now) == Err(VoteTimeExpire)
  {
  }

  /** Within the week, a vote is refused as repeated exactly when it equals the
      recorded one; cancelling a vote that was never cast counts as a repeat. */
  lemma RepeatRule(s: State, userID: string, postID: string, value: int, now: int)
    requires now - ScoreRead(s, true, TimeKey(), postID) <= OneWeekInSeconds
    ensures VotePlan(s, true, userID, postID, value, now) == Err(VoteRepeated) <==>
      value == VoteOf(s, userID, postID)
    ensures value == 0 && userID !in ZSet(s, PostVotedKey(postID)) ==>
      VotePlan(s, true, userID, postID, value, now) == Err(VoteRepeated)
  {
  }

  /** The only errors a vote decision yields are the two vote errors. */
  lemma PlanErrors(s: State, online: bool, userID: string, postID: string, value: int, now: int)
    ensures VotePlan(s, online, userID, postID, value, now).Err? ==>
      VotePlan(s, online, userID, postID, value, now).error in {VoteTimeExpire, VoteRepeated}
  {
  }

  /** With directions in {1, 0, -1}, an accepted vote moves the score by one or two votes' worth. */
  lemma AcceptedDiff(s: State, userID: string, postID: string, value: int, now: int)
    requires value in {1, 0, -1} && VoteOf(s, userID, postID) in {1, 0, -1}
    requires VotePlan(s, true, userID, postID, value, now).Ok?
    ensures VotePlan(s, true, userID, postID, value, now).value[0].delta in {432, -432, 864, -864}
  {
  }

  /** The vote record of `postID` after `userID` casts `value`. */
  function Recorded(z: map<string, int>, userID: string, value: int): map<string, int> {
    if value == 0 then z - {userID} else z[userID := value]
  }

  /** An accepted vote changes exactly two things: this post's score, by the
      difference of the votes times 432, and this user's record on this post. */
  lemma VoteEffect(s: State, userID: string, postID: string, value: int, now: int)
    requires VotePlan(s, true, userID, postID, value, now).Ok?
    ensures ApplyAll(s, now, VotePlan(s, true, userID, postID, value, now).value) ==
      s.(zsets := s.zsets
        [ScoreKey() := ZSet(s, ScoreKey())[postID := ScoreOf(s, postID) + (value - VoteOf(s, userID, postID)) * ScorePerVote]]
        [PostVotedKey(postID) := Recorded(ZSet(s, PostVotedKey(postID)), userID, value)])
  {
    var oldValue := ScoreRead(s, true, PostVotedKey(postID), userID);
    assert VotePlan(s, true, userID, postID, value, now).value == VoteCmds(userID, postID, value, oldValue);
    VoteCmdsEffect(s, now, userID, postID, value, oldValue);
  }

  /** The two commands of a vote transaction, whatever old vote they were computed from. */
  lemma VoteCmdsEffect(s: State, now: int, userID: string, postID: string, value: int, oldValue: int)
    ensures ApplyAll(s, now, VoteCmds(userID, postID, value, oldValue)) ==
      s.(zsets := s.zsets
        [ScoreKey() := ZSet(s, ScoreKey())[postID := ScoreOf(s, postID) + (value - oldValue) * ScorePerVote]]
        [PostVotedKey(postID) := Recorded(ZSet(s, PostVotedKey(postID)), userID, value)])
  {
    var cmds := VoteCmds(userID, postID, value, oldValue);
    ApplyTwo(s, now, cmds[0], cmds[1]);
    assert cmds == [cmds[0], cmds[1]];
    var s1 := Apply(s, now, cmds[0]);
    assert s1 == s.(zsets := s.zsets[ScoreKey() := ZSet(s, ScoreKey())[postID := ScoreOf(s, postID) + (value - oldValue) * ScorePerVote]]);
    VoteKeysDistinct(postID);
    assert ZSet(s1, PostVotedKey(postID)) == ZSet(s, PostVotedKey(postID));
    ApplyRecord(s1, now, PostVotedKey(postID), userID, value, cmds[1]);
  }

  /** The second command of a vote writes the voter's new record into the vote set. */
  lemma ApplyRecord(s: State, now: int, key: string, userID: string, value: int, c: Cmd)
    requires c == if value == 0 then ZRemCmd(key, userID) else ZAddCmd(key, userID, value)
    ensures Apply(s, now, c) == s.(zsets := s.zsets[key := Recorded(ZSet(s, key), userID, value)])
  {
  }

  /** Seen through the ledger's accessors: the score of this post moves, the voter's
      record becomes `value` (removed for 0), and no other post or voter is touched. */
  lemma VoteEffectObserved(s: State, userID: string, postID: string, value: int, now: int)
    requires VotePlan(s, true, userID, postID, value, now).Ok?
    ensures var s' := ApplyAll(s, now, VotePlan(s, true, userID, postID, value, now).value);
      && ScoreOf(s', postID) == ScoreOf(s, postID) + (value - VoteOf(s, userID, postID)) * ScorePerVote
      && VoteOf(s', userID, postID) == value
      && (value == 0 ==> userID !in ZSet(s', PostVotedKey(postID)))
      && (forall q :: q != postID ==> ScoreOf(s', q) == ScoreOf(s, q) && ZSet(s', PostVotedKey(q)) == ZSet(s, PostVotedKey(q)))
      && (forall u :: u != userID ==> VoteOf(s', u, postID) == VoteOf(s, u, postID))
      && s'.strings == s.strings && s'.sets == s.sets
  {
    VoteEffect(s, userID, postID, value, now);
    VoteKeysDistinct(postID);
    forall q | q != postID
      ensures PostVotedKey(q) != PostVotedKey(postID) && PostVotedKey(q) != ScoreKey()
    {
      VoteKeysDistinct(q);
      if PostVotedKey(q) == PostVotedKey(postID) {
        PostVotedKeyInjective(q, postID);
      }
    }
  }

  // ---------- the ledger invariant ----------

  /** The sum of the votes in a vote record. */
  ghost function SumVotes(m: map<string, int>): int
    decreases |m|
  {
    if m == map[] then 0
    else
      var k :| k in m;
      assert (m - {k}).Keys == m.Keys - {k};
      m[k] + SumVotes(m - {k})
  }

  lemma {:induction false} SumVotesRemove(m: map<string, int>, k: string)
    requires k in m
    ensures SumVotes(m) == m[k] + SumVotes(m - {k})
    decreases |m|
  {
    var j :| j in m && SumVotes(m) == m[j] + SumVotes(m - {j});
    if j != k {
      assert (m - {j}).Keys == m.Keys - {j};
      assert (m - {k}).Keys == m.Keys - {k};
      SumVotesRemove(m - {j}, k);
      SumVotesRemove(m - {k}, j);
      assert m - {j} - {k} == m - {k} - {j};
    }
  }

  /** Recording vote `v` for `k` moves the sum by `v` minus the vote it replaces. */
  lemma SumVotesUpdate(m: map<string, int>, k: string, v: int)
    ensures SumVotes(m[k := v]) == SumVotes(m) - (if k in m then m[k] else 0) + v
  {
    SumVotesRemove(m[k := v], k);
    assert m[k := v] - {k} == m - {k};
    if k in m {
      SumVotesRemove(m, k);
    } else {
      assert m - {k} == m;
    }
  }

  /** Removing `k`'s vote moves the sum by minus that vote. */
  lemma SumVotesDelete(m: map<string, int>, k: string)
    ensures SumVotes(m - {k}) == SumVotes(m) - (if k in m then m[k] else 0)
  {
    if k in m {
      SumVotesRemove(m, k);
    } else {
      assert m - {k} == m;
    }
  }

  /** The ledger at one post: its score is its initial score plus 432 times the sum of its votes. */
  ghost predicate LedgerAt(s: State, initial: map<string, int>, p: string) {
    ScoreOf(s, p) == (if p in initial then initial[p] else 0) + ScorePerVote * SumVotes(ZSet(s, PostVotedKey(p)))
  }

  /** The ledger holds at every post. */
  ghost predicate Ledger(s: State, initial: map<string, int>) {
    forall p :: LedgerAt(s, initial, p)
  }

  /** An accepted vote keeps the ledger: the score moves by exactly what the vote record's sum moves. */
  lemma VotePreservesLedger(s: State, initial: map<string, int>, userID: string, postID: string, value: int, now: int)
    requires Ledger(s, initial)
    requires VotePlan(s, true, userID, postID, value, now).Ok?
    ensures Ledger(ApplyAll(s, now, VotePlan(s, true, userID, postID, value, now).value), initial)
  {
    var s' := ApplyAll(s, now, VotePlan(s, true, userID, postID, value, now).value);
    VoteEffect(s, userID, postID, value, now);
    VoteEffectObserved(s, userID, postID, value, now);
    var z := ZSet(s, PostVotedKey(postID));
    assert ZSet(s', PostVotedKey(postID)) == Recorded(z, userID, value);
    if value == 0 {
      SumVotesDelete(z, userID);
    } else {
      SumVotesUpdate(z, userID, value);
    }
    assert LedgerAt(s, initial, postID);
    assert LedgerAt(s', initial, postID);
    forall p
      ensures LedgerAt(s', initial, p)
    {
      if p != postID {
        assert LedgerAt(s, initial, p);
      }
    }
  }

  /** Creating a post with no votes on record starts its score at the creation time,
      keeps every other post's score and votes, and so extends the ledger. */
  lemma CreatePreservesLedger(s: State, initial: map<string, int>, postID: int, now: int)
    requires Ledger(s, initial)
    requires ZSet(s, PostVotedKey(Decimal(postID))) == map[]
    ensures var s' := ApplyAll(s, now, CreatePostCmds(postID, now));
      && ScoreOf(s', Decimal(postID)) == now
      && ScoreRead(s', true, TimeKey(), Decimal(postID)) == now
      && Ledger(s', initial[Decimal(postID) := now])
  {
    var id := Decimal(postID);
    var s' := ApplyAll(s, now, CreatePostCmds(postID, now));
    CreateCmdsEffect(s, postID, now);
    VoteKeysDistinct(id);
    assert SumVotes(ZSet(s', PostVotedKey(id))) == 0;
    var initial' := initial[id := now];
    assert LedgerAt(s', initial', id);
    forall p
      ensures LedgerAt(s', initial', p)
    {
      if p != id {
        VoteKeysDistinct(p);
        assert LedgerAt(s, initial, p);
      }
    }
  }

  /** The creation transaction sets the post's time and score and touches no other sorted set. */
  lemma CreateCmdsEffect(s: State, postID: int, now: int)
    ensures ApplyAll(s, now, CreatePostCmds(postID, now)).zsets ==
      s.zsets[TimeKey() := ZSet(s, TimeKey())[Decimal(postID) := now]][ScoreKey() := ZSet(s, ScoreKey())[Decimal(postID) := now]]
  {
    var cmds := CreatePostCmds(postID, now);
    ApplyThree(s, now, cmds[0], cmds[1], cmds[2]);
    assert cmds == [cmds[0], cmds[1], cmds[2]];
    VoteKeysDistinct(Decimal(postID));
  }
}

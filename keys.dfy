/** Redis key namespacing (dao/redis/keys.go) and the decimal spelling of ids
    (strconv.FormatInt(id, 10)) that the cache and vote keys append. */
module Keys {

  const KeyPrefix := "bluebell:"
  const KeyPostTimeZSet := "post:time"
  const KeyPostScoreZSet := "post:score"
  const KeyPostVotedZSetPF := "post:voted:"
  const KeyCommunitySetPF := "community:"
  const KeyPostDetailPF := "cache:post:"
  const KeyUserInfoPF := "cache:user:"
  const KeyCommunityInfoPF := "cache:community:"
  const KeyPostListPF := "cache:postlist:"
  const KeyBloomFilter := "bloom:filter"
  const KeyCacheLock := "cache:lock:"

  /** getRedisKey: the key lives under the project namespace and carries `key` unchanged after it. */
  function RedisKey(key: string): (r: string)
    ensures |r| == |KeyPrefix| + |key|
    ensures r[..|KeyPrefix|] == KeyPrefix && r[|KeyPrefix|..] == key
  {
    KeyPrefix + key
  }

  lemma RedisKeyInjective(k1: string, k2: string)
    requires RedisKey(k1) == RedisKey(k2)
    ensures k1 == k2
  {
    assert k1 == RedisKey(k1)[|KeyPrefix|..];
  }

  // ---------- decimal spelling of integers ----------

  predicate IsDigit(c: char) {
    '0' <= c <= '9'
  }

  function Digit(d: int): (c: char)
    requires 0 <= d < 10
    ensures IsDigit(c) && c as int - '0' as int == d
  {
    (d + '0' as int) as char
  }

  /** The decimal digits of a natural number, most significant first, without leading zeros. */
  function NatDecimal(n: nat): (s: string)
    ensures 1 <= |s|
    ensures forall i :: 0 <= i < |s| ==> IsDigit(s[i])
    ensures n < 10 <==> |s| == 1
    decreases n
  {
    if n < 10 then [Digit(n)] else NatDecimal(n / 10) + [Digit(n % 10)]
  }

  /** strconv.FormatInt(n, 10): a '-' sign for negatives, then the digits. */
  function Decimal(n: int): (s: string)
    ensures 1 <= |s|
    ensures (s[0] == '-') <==> n < 0
  {
    if n < 0 then "-" + NatDecimal(-n) else NatDecimal(n)
  }

  lemma {:induction false} NatDecimalInjective(a: nat, b: nat)
    requires NatDecimal(a) == NatDecimal(b)
    ensures a == b
    decreases a
  {
    var sa, sb := NatDecimal(a), NatDecimal(b);
    if a < 10 {
      assert b < 10;
      assert sa[0] == Digit(a) && sb[0] == Digit(b);
    } else {
      assert 10 <= b;
      var pa, pb := NatDecimal(a / 10), NatDecimal(b / 10);
      assert sa == pa + [Digit(a % 10)];
      assert sb == pb + [Digit(b % 10)];
      assert sa[|sa| - 1] == Digit(a % 10) && sb[|sb| - 1] == Digit(b % 10);
      assert pa == sa[..|sa| - 1] && pb == sb[..|sb| - 1];
      NatDecimalInjective(a / 10, b / 10);
    }
  }

  /** Distinct integers are spelled differently, so ids never share a key. */
  lemma DecimalInjective(a: int, b: int)
    requires Decimal(a) == Decimal(b)
    ensures a == b
  {
    if a < 0 {
      assert Decimal(a)[1..] == NatDecimal(-a);
      assert Decimal(b)[1..] == NatDecimal(-b);
      NatDecimalInjective(-a, -b);
    } else {
      NatDecimalInjective(a, b);
    }
  }

  // ---------- the concrete keys ----------

  /** The key of a cached entity: namespace, entity prefix, decimal id. */
  function CacheKey(prefix: string, id: int): string {
    RedisKey(prefix + Decimal(id))
  }

  /** Key of the per-post vote record zset: "bluebell:post:voted:" + postID. */
  function PostVotedKey(postID: string): (k: string)
    ensures k == "bluebell:post:voted:" + postID
  {
    RedisKey(KeyPostVotedZSetPF + postID)
  }

  /** The stampede lock key for a resource. */
  function LockKey(resourceID: string): string {
    RedisKey(KeyCacheLock + resourceID)
  }

  /** The four prefixes under which cache entries and locks live. */
  const CachePrefixes := [KeyPostDetailPF, KeyUserInfoPF, KeyCommunityInfoPF, KeyCacheLock]

  predicate IsPrefix(p: string, s: string) {
    |p| <= |s| && s[..|p|] == p
  }

  /** The cache prefixes are pairwise distinct and none is a prefix of another. */
  lemma CachePrefixesPrefixFree()
    ensures forall i, j :: 0 <= i < |CachePrefixes| && 0 <= j < |CachePrefixes| && i != j ==>
      CachePrefixes[i] != CachePrefixes[j] && !IsPrefix(CachePrefixes[i], CachePrefixes[j])
  {
    assert KeyPostDetailPF[6] == 'p' && KeyUserInfoPF[6] == 'u';
    assert KeyCommunityInfoPF[6] == 'c' && KeyCacheLock[6] == 'l';
  }

  lemma PrefixedInjective(p: string, s1: string, s2: string)
    requires p + s1 == p + s2
    ensures s1 == s2
  {
    assert s1 == (p + s1)[|p|..];
    assert s2 == (p + s2)[|p|..];
  }

  /** Two strings that start with prefixes neither of which is a prefix of the other differ. */
  lemma PrefixFreeDiffer(p1: string, s1: string, p2: string, s2: string)
    requires !IsPrefix(p1, p2) && !IsPrefix(p2, p1)
    ensures p1 + s1 != p2 + s2
  {
    if |p1| <= |p2| {
      assert (p1 + s1)[..|p1|] == p1;
      assert (p2 + s2)[..|p1|] == p2[..|p1|];
    } else {
      assert (p2 + s2)[..|p2|] == p2;
      assert (p1 + s1)[..|p2|] == p1[..|p2|];
    }
  }

  /** Keys of different entity kinds (or a lock) never collide, whatever follows the prefix. */
  lemma CacheKindsNeverCollide(i: nat, j: nat, s1: string, s2: string)
    requires i < |CachePrefixes| && j < |CachePrefixes| && i != j
    ensures RedisKey(CachePrefixes[i] + s1) != RedisKey(CachePrefixes[j] + s2)
  {
    CachePrefixesPrefixFree();
    var p1, p2 := CachePrefixes[i], CachePrefixes[j];
    PrefixFreeDiffer(p1, s1, p2, s2);
    if RedisKey(p1 + s1) == RedisKey(p2 + s2) {
      RedisKeyInjective(p1 + s1, p2 + s2);
    }
  }

  /** Within one kind, distinct ids give distinct keys. */
  lemma CacheKeyInjective(prefix: string, a: int, b: int)
    requires CacheKey(prefix, a) == CacheKey(prefix, b)
    ensures a == b
  {
    RedisKeyInjective(prefix + Decimal(a), prefix + Decimal(b));
    PrefixedInjective(prefix, Decimal(a), Decimal(b));
    DecimalInjective(a, b);
  }

  /** Distinct posts have distinct vote-record keys. */
  lemma PostVotedKeyInjective(p: string, q: string)
    requires PostVotedKey(p) == PostVotedKey(q)
    ensures p == q
  {
    PrefixedInjective("bluebell:post:voted:", p, q);
  }

  /** The three vote-ledger keys are pairwise distinct for every post. */
  lemma VoteKeysDistinct(postID: string)
    ensures PostVotedKey(postID) != RedisKey(KeyPostScoreZSet)
    ensures PostVotedKey(postID) != RedisKey(KeyPostTimeZSet)
    ensures RedisKey(KeyPostScoreZSet) != RedisKey(KeyPostTimeZSet)
  {
    var v := PostVotedKey(postID);
    assert v[14] == 'v';
    assert RedisKey(KeyPostScoreZSet)[14] == 's';
    assert RedisKey(KeyPostTimeZSet)[14] == 't';
  }
}

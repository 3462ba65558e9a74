/** The records of the models package and the user and community rows the DAOs read.
    Times are Unix seconds. */
module Models {

  type byte = x: int | 0 <= x < 256

  /** A post row (models/post.go Post). */
  datatype Post = Post(
    id: int,
    authorId: int,
    communityId: int,
    status: int,
    title: string,
    content: string,
    createTime: int)

  /** A user row; `password` holds the stored password hash. */
  datatype User = User(userId: int, username: string, password: string)

  /** A community row with its details. */
  datatype CommunityDetail = CommunityDetail(id: int, name: string, introduction: string, createTime: int)

  /** The two columns GetCommunityList selects. */
  datatype Community = Community(id: int, name: string)

  /** The composite a post-detail read returns (models/post.go ApiPostDetail). */
  datatype PostDetail = PostDetail(authorName: string, post: Post, community: CommunityDetail)

  /** Unix seconds of Go's zero time.Time (January 1 of year 1, UTC). */
  const ZeroTime := -62135596800

  /** The zero value `new(models.CommunityDetail)` starts from. */
  const ZeroCommunity := CommunityDetail(0, "", "", ZeroTime)

  /** time.Time marshals to JSON only for years 0 through 9999. */
  const MinJsonTime := -62167219200
  const MaxJsonTime := 253402300799

  predicate JsonTime(t: int) {
    MinJsonTime <= t <= MaxJsonTime
  }
}

/** The post table's data-access functions (dao/mysql/post.go): the insert over the
    write handle and three reads over a read handle. */
module PostDao {
  import opened Wrappers
  import opened Models
  import opened MySqlStore
  import opened Batch

  /** The row an insert of `p` leaves: the five inserted columns of `p`, and the table's
      defaults for status and create_time (the time of the insert). */
  function Inserted(p: Post, statusDefault: int, now: int): Post {
    p.(status := statusDefault, createTime := now)
  }

  /** CreatePost: the row is added unless its id is taken. */
  method CreatePost(db: Database, p: Post, now: int) returns (err: Option<Error>)
    requires db.Valid()
    modifies db
    ensures db.Valid()
    ensures db.online == old(db.online) && db.users == old(db.users) && db.usernames == old(db.usernames)
    ensures db.communities == old(db.communities)
    ensures err == None <==> db.online && p.id !in old(db.posts)
    ensures !db.online ==> err == Some(Backend)
    ensures db.online && p.id in old(db.posts) ==> err == Some(DuplicateKey)
    ensures err == None ==> db.posts == old(db.posts)[p.id := Inserted(p, db.statusDefault, now)]
    ensures err != None ==> db.posts == old(db.posts)
  {
    if !db.online {
      return Some(Backend);
    }
    if p.id in db.posts {
      return Some(DuplicateKey);
    }
    db.posts := db.posts[p.id := Inserted(p, db.statusDefault, now)];
    err := None;
  }

  /** GetPostByID: the row; "no rows" becomes ErrorInvalidID, any other error passes. */
  function GetPostByID(db: Database, postID: int): (r: Result<Post>)
    reads db
    ensures r.Ok? <==> db.online && postID in db.posts
    ensures r.Ok? ==> r.value == db.posts[postID]
    ensures r.Err? ==> r.error == (if db.online then InvalidID else Backend)
  {
    if !db.online then Err(Backend)
    else if postID !in db.posts then Err(InvalidID)
    else Ok(db.posts[postID])
  }

  /** A post just created reads back with the table's defaults filled in. */
  lemma CreatedPostReadsBack(db: Database, p: Post, now: int)
    requires db.online && p.id in db.posts && db.posts[p.id] == Inserted(p, db.statusDefault, now)
    ensures GetPostByID(db, p.id) == Ok(p.(status := db.statusDefault, createTime := now))
  {
  }

  /** The post table as `order by create_time desc` lists it: every row once, newest
      first, rows with equal times in an order the server chooses. */
  ghost predicate NewestFirst(posts: map<int, Post>, ranked: seq<Post>) {
    && |ranked| == |posts|
    && (forall i :: 0 <= i < |ranked| ==> ranked[i].id in posts && posts[ranked[i].id] == ranked[i])
    && (forall i, j :: 0 <= i < j < |ranked| ==> ranked[i].id != ranked[j].id)
    && (forall i, j :: 0 <= i < j < |ranked| ==> ranked[i].createTime >= ranked[j].createTime)
  }

  function Min(a: int, b: int): int {
    if a <= b then a else b
  }

  /** The first row of a page: `(page-1)*size`, so page 1 starts at row 0. */
  function Offset(page: int, size: int): int {
    (page - 1) * size
  }

  /** The offset is negative exactly when the size is positive and the page is below 1,
      or the size is negative and the page above 1. */
  lemma OffsetSign(page: int, size: int)
    ensures Offset(page, size) < 0 <==> (size > 0 && page < 1) || (size < 0 && page > 1)
  {
    if size > 0 && page >= 1 { MulNonNeg(page - 1, size); }
    if size < 0 && page <= 1 { MulNonNeg(1 - page, -size); }
    if size > 0 && page < 1 { MulPos(1 - page, size); }
    if size < 0 && page > 1 { MulPos(page - 1, -size); }
  }

  lemma MulNonNeg(a: int, b: int)
    requires a >= 0 && b >= 0
    ensures a * b >= 0
  {
  }

  lemma MulPos(a: int, b: int)
    requires a > 0 && b > 0
    ensures a * b > 0
  {
  }

  /** GetPostList: `limit (page-1)*size, size` over the newest-first listing `ranked`.
      The server refuses a negative offset or row count. */
  function GetPostList(db: Database, page: int, size: int, ranked: seq<Post>): (r: Result<seq<Post>>)
    requires NewestFirst(db.posts, ranked)
    reads db
    ensures r.Err? <==> !db.online || size < 0 || Offset(page, size) < 0
    ensures r.Err? ==> r.error == Backend
    ensures r.Ok? ==> |r.value| <= size
    ensures r.Ok? ==> forall i :: 0 <= i < |r.value| ==>
      Offset(page, size) + i < |ranked| && r.value[i] == ranked[Offset(page, size) + i]
    ensures r.Ok? ==> forall i :: 0 <= i < |r.value| ==> r.value[i].id in db.posts && db.posts[r.value[i].id] == r.value[i]
    ensures r.Ok? ==> forall i, j :: 0 <= i < j < |r.value| ==> r.value[i].createTime >= r.value[j].createTime
    ensures r.Ok? && Offset(page, size) + size <= |ranked| ==> |r.value| == size
  {
    var offset := Offset(page, size);
    if !db.online || offset < 0 || size < 0 then Err(Backend)
    else
      var from := Min(offset, |ranked|);
      Ok(ranked[from..Min(offset + size, |ranked|)])
  }

  /** With the server up, a page is refused exactly for a negative size, or a positive
      size with a page number below 1. */
  lemma PageRefused(db: Database, page: int, size: int, ranked: seq<Post>)
    requires NewestFirst(db.posts, ranked) && db.online
    ensures GetPostList(db, page, size, ranked).Err? <==> size < 0 || (size > 0 && page < 1)
  {
    OffsetSign(page, size);
  }

  /** Pages tile the listing: with a positive size, row i of the listing is row i mod size
      of page i div size + 1; page 1 of size 10 holds rows 0 to 9. */
  lemma RowOnPage(db: Database, size: int, ranked: seq<Post>, i: int)
    requires NewestFirst(db.posts, ranked) && db.online
    requires size > 0 && 0 <= i < |ranked|
    ensures GetPostList(db, i / size + 1, size, ranked).Ok?
    ensures i % size < |GetPostList(db, i / size + 1, size, ranked).value|
    ensures GetPostList(db, i / size + 1, size, ranked).value[i % size] == ranked[i]
  {
    var page := i / size + 1;
    assert Offset(page, size) + i % size == i;
    OffsetSign(page, size);
  }

  /** The columns GetPostListByIDs selects: everything but status, which reads as 0. */
  function Listed(p: Post): Post {
    p.(status := 0)
  }

  /** The rows for the ids of `u`, in the order of `u`, skipping ids without a row. */
  function Present(posts: map<int, Post>, u: seq<int>): seq<Post> {
    if u == [] then []
    else (if u[0] in posts then [Listed(posts[u[0]])] else []) + Present(posts, u[1..])
  }

  /** Each row of Present is the listed row of one of the ids. */
  lemma {:induction false} PresentRows(posts: map<int, Post>, u: seq<int>)
    requires forall id :: id in posts ==> posts[id].id == id
    ensures forall k :: 0 <= k < |Present(posts, u)| ==>
      && Present(posts, u)[k].id in u && Present(posts, u)[k].id in posts
      && Present(posts, u)[k] == Listed(posts[Present(posts, u)[k].id])
  {
    if u != [] {
      PresentRows(posts, u[1..]);
    }
  }

  /** Every id with a row contributes it. */
  lemma {:induction false} PresentComplete(posts: map<int, Post>, u: seq<int>)
    ensures forall id :: id in u && id in posts ==> Listed(posts[id]) in Present(posts, u)
  {
    if u != [] {
      PresentComplete(posts, u[1..]);
      forall id | id in u && id in posts
        ensures Listed(posts[id]) in Present(posts, u)
      {
        if id != u[0] {
          assert id in u[1..];
        }
      }
    }
  }

  /** The rows keep the order of their ids in `u`. */
  lemma {:induction false} PresentOrdered(posts: map<int, Post>, u: seq<int>, ids: seq<int>)
    requires forall id :: id in posts ==> posts[id].id == id
    requires forall x :: x in u ==> x in ids
    requires forall i, j :: 0 <= i < j < |u| ==> FirstIndex(ids, u[i]) < FirstIndex(ids, u[j])
    ensures forall k :: 0 <= k < |Present(posts, u)| ==> Present(posts, u)[k].id in u
    ensures forall k, l :: 0 <= k < l < |Present(posts, u)| ==>
      FirstIndex(ids, Present(posts, u)[k].id) < FirstIndex(ids, Present(posts, u)[l].id)
  {
    PresentRows(posts, u);
    if u != [] {
      var rest := u[1..];
      PresentOrdered(posts, rest, ids);
      forall x | x in rest
        ensures FirstIndex(ids, u[0]) < FirstIndex(ids, x)
      {
        var j :| 0 <= j < |rest| && rest[j] == x;
        assert rest[j] == u[j + 1];
      }
    }
  }

  /** GetPostListByIDs: the posts among `ids`, ordered by the first position of their id
      in `ids` (FIND_IN_SET); sqlx.In refuses an empty list. */
  function GetPostListByIDs(db: Database, ids: seq<int>): (r: Result<seq<Post>>)
    requires db.Valid()
    reads db
    ensures ids == [] ==> r == Err(EmptyInQuery)
    ensures ids != [] && !db.online ==> r == Err(Backend)
    ensures r.Ok? <==> ids != [] && db.online
    ensures r.Ok? ==> forall k :: 0 <= k < |r.value| ==>
      r.value[k].id in ids && r.value[k].id in db.posts && r.value[k] == Listed(db.posts[r.value[k].id])
    ensures r.Ok? ==> forall id :: id in ids && id in db.posts ==> Listed(db.posts[id]) in r.value
    ensures r.Ok? ==> forall k, l :: 0 <= k < l < |r.value| ==>
      FirstIndex(ids, r.value[k].id) < FirstIndex(ids, r.value[l].id)
  {
    if ids == [] then Err(EmptyInQuery)
    else if !db.online then Err(Backend)
    else
      FirstSeenSpec(ids);
      PresentRows(db.posts, FirstSeen(ids));
      PresentComplete(db.posts, FirstSeen(ids));
      PresentOrdered(db.posts, FirstSeen(ids), ids);
      Ok(Present(db.posts, FirstSeen(ids)))
  }
}

/** The community table's data-access functions (dao/mysql/community.go). In the two
    single reads the `err` declared inside the `if` shadows the named result, so neither
    ever reports an error: a failed read yields an empty list or a zero-valued community. */
module CommunityDao {
  import opened Wrappers
  import opened Models
  import opened MySqlStore
  import opened Batch

  /** The two columns the list selects. */
  function Summary(c: CommunityDetail): Community {
    Community(c.id, c.name)
  }

  /** GetCommunityList: every community once, in an order the server chooses; when the
      read fails the list stays empty and the error is dropped. */
  method GetCommunityList(db: Database) returns (list: seq<Community>, err: Option<Error>)
    requires db.Valid()
    ensures err == None
    ensures !db.online ==> list == []
    ensures db.online ==> forall c :: c in list <==> c.id in db.communities && c == Summary(db.communities[c.id])
    ensures forall i, j :: 0 <= i < j < |list| ==> list[i].id != list[j].id
  {
    list, err := [], None;
    if !db.online {
      return;
    }
    var todo := db.communities.Keys;
    while todo != {}
      invariant todo <= db.communities.Keys
      invariant forall c :: c in list <==> c.id in db.communities && c.id !in todo && c == Summary(db.communities[c.id])
      invariant forall i, j :: 0 <= i < j < |list| ==> list[i].id != list[j].id
      decreases |todo|
    {
      var id := Pick(todo);
      list := list + [Summary(db.communities[id])];
      todo := todo - {id};
    }
  }

  /** GetCommunityDetailByID: the row, or the zero value when there is none or the read
      fails; the error result is always nil. */
  function GetCommunityDetailByID(db: Database, id: int): (r: (CommunityDetail, Option<Error>))
    reads db
    ensures r.1 == None
    ensures db.online && id in db.communities ==> r.0 == db.communities[id]
    ensures !(db.online && id in db.communities) ==> r.0 == ZeroCommunity
  {
    if db.online && id in db.communities then (db.communities[id], None) else (ZeroCommunity, None)
  }

  function Same(c: CommunityDetail): CommunityDetail {
    c
  }

  /** BatchGetCommunitiesByIDs: the communities among the ids, keyed by id. */
  method BatchGetCommunitiesByIDs(db: Database, communityIDs: seq<int>) returns (r: Result<map<int, CommunityDetail>>)
    requires db.Valid()
    ensures communityIDs == [] ==> r == Ok(map[])
    ensures |communityIDs| > MaxBatchSize ==> r == Err(TooManyIDs(|communityIDs|, MaxBatchSize))
    ensures 0 < |communityIDs| <= MaxBatchSize && !db.online ==> r == Err(Wrapped("batch get communities failed", Backend))
    ensures 0 < |communityIDs| <= MaxBatchSize && db.online ==> r == Ok(Found(db.communities, communityIDs, Same))
  {
    r := BatchGetByIDs(db.online, db.communities, (c: CommunityDetail) => c.id, Same, communityIDs, "batch get communities failed");
  }

  /** Where the batch read finds a community the single read returns the same row; where
      it finds none the single read still succeeds, with the zero-valued community. */
  lemma BatchVersusSingle(db: Database, communityIDs: seq<int>, found: map<int, CommunityDetail>)
    requires db.online && found == Found(db.communities, communityIDs, Same)
    ensures forall id :: id in found ==> GetCommunityDetailByID(db, id) == (found[id], None)
    ensures forall id :: id in communityIDs && id !in found ==> GetCommunityDetailByID(db, id) == (ZeroCommunity, None)
  {
  }
}

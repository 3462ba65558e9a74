/** The MySQL server as the DAOs see it: the user, post and community tables keyed by
    primary key, the unique index on user names, and whether the server answers.
    Which pool a statement travels over does not change what it reads or writes. */
module MySqlStore {
  import opened Wrappers
  import opened Models

  class Database {
    var users: map<int, User>
    /** The unique index on `user.username`. */
    var usernames: map<string, int>
    var posts: map<int, Post>
    var communities: map<int, CommunityDetail>
    var online: bool
    /** The value the post table gives the status column that an insert leaves out. */
    const statusDefault: int

    constructor (communityRows: map<int, CommunityDetail>, up: bool, status: int)
      requires forall id :: id in communityRows ==> communityRows[id].id == id
      ensures Valid()
      ensures users == map[] && usernames == map[] && posts == map[]
      ensures communities == communityRows && online == up && statusDefault == status
    {
      users, usernames, posts := map[], map[], map[];
      communities, online, statusDefault := communityRows, up, status;
    }

    /** Every row sits under its own key and the name index is exact. */
    ghost predicate Valid()
      reads this
    {
      && (forall id :: id in users ==> users[id].userId == id)
      && (forall id :: id in users ==> users[id].username in usernames && usernames[users[id].username] == id)
      && (forall n :: n in usernames ==> usernames[n] in users && users[usernames[n]].username == n)
      && (forall id :: id in posts ==> posts[id].id == id)
      && (forall id :: id in communities ==> communities[id].id == id)
    }
  }

  /** Every row of `table` sits under its own key. */
  ghost predicate Keyed<T>(table: map<int, T>, idOf: T -> int) {
    forall id :: id in table ==> idOf(table[id]) == id
  }

  /** The number of `?` placeholders in a piece of query text. */
  function Marks(query: string): (n: nat)
    ensures n <= |query|
  {
    if query == [] then 0 else (if query[0] == '?' then 1 else 0) + Marks(query[1..])
  }

  lemma {:induction false} MarksConcat(a: string, b: string)
    ensures Marks(a + b) == Marks(a) + Marks(b)
  {
    if a == [] {
      assert a + b == b;
    } else {
      assert (a + b)[0] == a[0] && (a + b)[1..] == a[1..] + b;
      MarksConcat(a[1..], b);
    }
  }

  /** SELECT ... WHERE id IN (...): each row of `table` whose key is among `args`, once,
      cut down to the selected columns by `project`, in an order the server chooses.
      The driver refuses a statement whose placeholders do not match its arguments. */
  method SelectIn<T(==,!new)>(online: bool, table: map<int, T>, idOf: T -> int, project: T -> T, inList: string, args: seq<int>)
    returns (rows: Result<seq<T>>)
    requires Keyed(table, idOf)
    requires forall v :: idOf(project(v)) == idOf(v)
    ensures rows.Err? <==> !online || Marks(inList) != |args|
    ensures rows.Err? ==> rows.error == Backend
    ensures rows.Ok? ==> forall k :: 0 <= k < |rows.value| ==>
      && idOf(rows.value[k]) in args && idOf(rows.value[k]) in table
      && rows.value[k] == project(table[idOf(rows.value[k])])
    ensures rows.Ok? ==> forall id :: id in args && id in table ==> project(table[id]) in rows.value
  {
    if !online || Marks(inList) != |args| {
      return Err(Backend);
    }
    var found: seq<T> := [];
    for i := 0 to |args|
      invariant forall k :: 0 <= k < |found| ==>
        && idOf(found[k]) in args && idOf(found[k]) in table
        && found[k] == project(table[idOf(found[k])])
      invariant forall j :: 0 <= j < i && args[j] in table ==> project(table[args[j]]) in found
    {
      if args[i] in table && project(table[args[i]]) !in found {
        assert idOf(project(table[args[i]])) == args[i];
        found := found + [project(table[args[i]])];
      }
    }
    rows := Ok(found);
  }
}
